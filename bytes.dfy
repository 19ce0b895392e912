/**
  Node `Buffer` operations over byte sequences: storing a Number into one
  byte, the big-endian writers `writeUIntBE`/`writeUInt32BE`, and decoding a
  hex string with `Buffer.from(hex, 'hex')`.
*/
module Bytes {
  import opened JsText

  type byte = b: int | 0 <= b < 256

  /** Storing an integer into a Buffer element keeps its low eight bits. */
  function ByteOf(n: int): (b: byte)
    ensures n % 256 == b
    ensures 0 <= n < 256 ==> b == n
  {
    n % 256
  }

  function Pow256(k: nat): (p: nat)
    ensures p >= 1
  {
    if k == 0 then 1 else 256 * Pow256(k - 1)
  }

  /** The `width` low-order bytes of `n`, most significant first. */
  function BigEndian(n: nat, width: nat): (r: seq<byte>)
    ensures |r| == width
  {
    if width == 0 then [] else BigEndian(n / 256, width - 1) + [ByteOf(n)]
  }

  /** The number a big-endian byte sequence denotes. */
  function BigEndianValue(bs: seq<byte>): (v: nat)
    ensures v < Pow256(|bs|)
  {
    if bs == [] then 0 else BigEndianValue(bs[..|bs| - 1]) * 256 + bs[|bs| - 1]
  }

  /** Reading back what the big-endian writer stored gives the number, when it fits. */
  lemma {:induction false} BigEndianRoundTrip(n: nat, width: nat)
    requires n < Pow256(width)
    ensures BigEndianValue(BigEndian(n, width)) == n
  {
    if width > 0 {
      var r := BigEndian(n, width);
      assert r[..width - 1] == BigEndian(n / 256, width - 1);
      BigEndianRoundTrip(n / 256, width - 1);
    }
  }

  // ---------------------------------------------------------------------------
  // Hex text
  // ---------------------------------------------------------------------------

  function HexDigit(c: char): (d: Option<byte>)
    ensures d.Some? ==> d.value < 16
  {
    match RadixDigit(c, 16)
    case Some(v) => Some(v)
    case None => None
  }

  /**
    `Buffer.from(s, 'hex')`: one byte per pair of hex digits, stopping at the
    first pair that is not two hex digits; a trailing single digit is dropped.
  */
  function HexDecode(s: string): (r: seq<byte>)
    ensures |r| <= |s| / 2
  {
    if |s| < 2 then []
    else match (HexDigit(s[0]), HexDigit(s[1]))
      case (Some(hi), Some(lo)) => [hi * 16 + lo] + HexDecode(s[2..])
      case _ => []
  }

  function HexChar(d: byte): (c: char)
    requires d < 16
    ensures HexDigit(c) == Some(d)
  {
    if d < 10 then ('0' as int + d) as char else ('a' as int + d - 10) as char
  }

  /** `buf.toString('hex')`: two lower-case hex digits per byte. */
  function HexEncode(bs: seq<byte>): (s: string)
    ensures |s| == 2 * |bs|
  {
    if bs == [] then "" else [HexChar(bs[0] / 16), HexChar(bs[0] % 16)] + HexEncode(bs[1..])
  }

  lemma HexDecodePair(c0: char, c1: char, rest: string)
    requires HexDigit(c0).Some? && HexDigit(c1).Some?
    ensures HexDecode([c0, c1] + rest) == [HexDigit(c0).value * 16 + HexDigit(c1).value] + HexDecode(rest)
  {
    assert ([c0, c1] + rest)[2..] == rest;
  }

  /** Hex decoding inverts hex encoding. */
  lemma {:induction false} HexRoundTrip(bs: seq<byte>)
    ensures HexDecode(HexEncode(bs)) == bs
  {
    if bs != [] {
      var b := bs[0];
      HexDecodePair(HexChar(b / 16), HexChar(b % 16), HexEncode(bs[1..]));
      HexRoundTrip(bs[1..]);
      assert [b] + bs[1..] == bs;
    }
  }

  /** Hex encoding distributes over concatenation. */
  lemma {:induction false} HexEncodeAppend(a: seq<byte>, b: seq<byte>)
    ensures HexEncode(a + b) == HexEncode(a) + HexEncode(b)
  {
    if a == [] {
      assert a + b == b;
    } else {
      assert (a + b)[0] == a[0];
      assert (a + b)[1..] == a[1..] + b;
      HexEncodeAppend(a[1..], b);
    }
  }

  /** `n` zero bytes, as `Buffer.alloc(n)` holds them. */
  function Zeros(n: nat): (r: seq<byte>)
    ensures |r| == n && forall i :: 0 <= i < n ==> r[i] == 0
  {
    seq(n, _ => 0)
  }

  function ZeroText(n: nat): (r: string)
    ensures |r| == n && forall i :: 0 <= i < n ==> r[i] == '0'
  {
    seq(n, _ => '0')
  }

  lemma {:induction false} HexEncodeZeros(n: nat)
    ensures HexEncode(Zeros(n)) == ZeroText(2 * n)
  {
    if n > 0 {
      assert Zeros(n)[1..] == Zeros(n - 1);
      HexEncodeZeros(n - 1);
      assert ZeroText(2 * n) == "00" + ZeroText(2 * (n - 1));
    }
  }
}
