/**
  The byte layouts the HTTP/WebSocket-FLV player session writes: the 13-byte
  FLV file header and one FLV tag per packet (Adobe Flash Video File Format
  Specification 10.1, annex E: E.2 the header, E.4.1 the tag, E.3 the
  PreviousTagSize that follows every tag).
*/
module FlvTag {
  import opened JsText
  import opened Bytes

  /** `FlvPacketHeader`: payload length, timestamp in milliseconds, tag type. */
  datatype FlvPacketHeader = FlvPacketHeader(length: nat, timestamp: int, packetType: int)

  /** `FlvPacket`: a payload (absent when the caller passed null) and its header. */
  datatype FlvPacket = FlvPacket(payload: Option<seq<byte>>, header: FlvPacketHeader)

  /** `new FlvPacket(payload, type, time)`: the header length is the payload's, or 0 without one. */
  function NewFlvPacket(payload: Option<seq<byte>>, packetType: int := 0, time: int := 0): (p: FlvPacket)
    ensures p.payload == payload
    ensures p.header.length == (if payload.Some? then |payload.value| else 0)
    ensures p.header.timestamp == time && p.header.packetType == packetType
  {
    FlvPacket(payload, FlvPacketHeader(if payload.Some? then |payload.value| else 0, time, packetType))
  }

  /** Tag types the session sends. */
  const TAG_TYPE_AUDIO := 8
  const TAG_TYPE_VIDEO := 9
  const TAG_TYPE_SCRIPT_DATA := 18

  /** Size of the tag header that precedes the payload. */
  const TAG_HEADER_SIZE := 11
  /** Largest value `writeUIntBE` accepts for a 3-byte field. */
  const MAX_UINT24 := 0xFF_FFFF

  /** `(ts >> shift) & 0xff`: `>>` works on the 32-bit signed value of `ts`. */
  function TimestampByte(ts: int, shift: nat): byte
    requires shift in {0, 8, 16, 24}
  {
    var x := ToInt32(ts);
    ByteOf(if shift == 0 then x else if shift == 8 then x / 0x100 else if shift == 16 then x / 0x1_0000 else x / 0x100_0000)
  }

  /**
    `FlvSession.createFlvTag(packet)`: a buffer of `11 + length + 4` bytes
    holding the type, the 3-byte length, the timestamp (bits 23..0 big-endian,
    then bits 31..24), a zero stream id, `length` bytes copied from the
    payload (the rest of the buffer stays zero), and the 4-byte PreviousTagSize.
    None where the code throws: a length above 0xFFFFFF (`writeUIntBE`) or no
    payload to copy from.
  */
  function CreateFlvTag(packet: FlvPacket): (tag: Option<seq<byte>>)
    ensures tag.Some? <==> packet.header.length <= MAX_UINT24 && packet.payload.Some?
    ensures tag.Some? ==> |tag.value| == packet.header.length + 15
  {
    var len := packet.header.length;
    if len > MAX_UINT24 || packet.payload.None? then None
    else
      var payload := packet.payload.value;
      var copied := if len <= |payload| then len else |payload|;
      var ts := packet.header.timestamp;
      Some([ByteOf(packet.header.packetType)]
           + BigEndian(len, 3)
           + [TimestampByte(ts, 16), TimestampByte(ts, 8), TimestampByte(ts, 0), TimestampByte(ts, 24)]
           + BigEndian(0, 3)
           + payload[..copied] + Zeros(len - copied)
           + BigEndian(TAG_HEADER_SIZE + len, 4))
  }

  /** The fields a tag carries on the wire. */
  datatype TagFields = TagFields(tagType: byte, timestamp: nat, payload: seq<byte>)

  /** The timestamp of a tag: byte 7 is the extension above the 24-bit field at bytes 4..6. */
  function TagTimestamp(tag: seq<byte>): (ts: nat)
    requires |tag| >= 8
    ensures ts < 0x1_0000_0000
  {
    assert Pow256(3) == 0x100_0000;
    tag[7] * 0x100_0000 + BigEndianValue(tag[4..7])
  }

  /** Reads back one tag that fills the buffer exactly; None when the layout does not hold. */
  function ParseFlvTag(bs: seq<byte>): (f: Option<TagFields>)
    ensures f.Some? ==> |bs| == |f.value.payload| + 15
  {
    if |bs| < 15 then None
    else
      var len := BigEndianValue(bs[1..4]);
      if |bs| != len + 15 || bs[8..11] != [0, 0, 0] || BigEndianValue(bs[len + 11..]) != TAG_HEADER_SIZE + len then None
      else Some(TagFields(bs[0], TagTimestamp(bs), bs[11..len + 11]))
  }

  lemma BigEndianThree(n: nat)
    requires n < 0x100_0000
    ensures BigEndian(n, 3) == [ByteOf(n / 0x1_0000), ByteOf(n / 0x100), ByteOf(n)]
  {
    assert BigEndian(n, 3) == BigEndian(n / 0x100, 2) + [ByteOf(n)];
    assert BigEndian(n / 0x100, 2) == BigEndian(n / 0x100 / 0x100, 1) + [ByteOf(n / 0x100)];
    assert BigEndian(n / 0x100 / 0x100, 1) == [ByteOf(n / 0x100 / 0x100)];
  }

  /**
    The four timestamp bytes give back the timestamp modulo 2^32, the value
    `>>` and `&` see.
  */
  lemma TimestampBytesValue(ts: int)
    ensures TimestampByte(ts, 24) * 0x100_0000 + BigEndianValue([TimestampByte(ts, 16), TimestampByte(ts, 8), TimestampByte(ts, 0)])
         == ts % 0x1_0000_0000
  {
    var x := ToInt32(ts);
    var r0, r1, r2, r3 := x % 0x100, x / 0x100 % 0x100, x / 0x1_0000 % 0x100, x / 0x100_0000 % 0x100;
    assert TimestampByte(ts, 24) == r3 && TimestampByte(ts, 16) == r2;
    assert TimestampByte(ts, 8) == r1 && TimestampByte(ts, 0) == r0;
    FourBytes(x);
    SameResidue(ts, x);
    var three: seq<byte> := [r2, r1, r0];
    assert three[..2] == [r2, r1] && [r2, r1][..1] == [r2] && [r2][..0] == [];
    assert BigEndianValue([r2]) == r2;
    assert BigEndianValue([r2, r1]) == r2 * 0x100 + r1;
    assert BigEndianValue(three) == (r2 * 0x100 + r1) * 0x100 + r0;
  }

  /** The low 32 bits of a number are its four low bytes. */
  lemma FourBytes(x: int)
    ensures x % 0x1_0000_0000
         == 0x100_0000 * (x / 0x100_0000 % 0x100) + 0x1_0000 * (x / 0x1_0000 % 0x100) + 0x100 * (x / 0x100 % 0x100) + x % 0x100
  {
    var q1 := x / 0x100;
    var q2 := q1 / 0x100;
    var q3 := q2 / 0x100;
    var q4 := q3 / 0x100;
    assert x / 0x1_0000 == q2;
    assert x / 0x100_0000 == q3;
    assert x == 0x1_0000_0000 * q4 + (0x100_0000 * (q3 % 0x100) + 0x1_0000 * (q2 % 0x100) + 0x100 * (q1 % 0x100) + x % 0x100);
  }

  lemma SameResidue(ts: int, x: int)
    requires (x - ts) % 0x1_0000_0000 == 0
    ensures ts % 0x1_0000_0000 == x % 0x1_0000_0000
  {
    var k := (x - ts) / 0x1_0000_0000;
    assert x == ts + 0x1_0000_0000 * k;
  }

  /**
    The layout of a tag: type byte, 24-bit length, the timestamp, zero stream
    id, the payload verbatim at offset 11, and the PreviousTagSize `11 + length`
    in the last four bytes.
  */
  lemma CreateFlvTagLayout(payload: seq<byte>, packetType: int, time: int)
    requires |payload| <= MAX_UINT24
    ensures var tag := CreateFlvTag(NewFlvPacket(Some(payload), packetType, time));
      && tag.Some?
      && |tag.value| == |payload| + 15
      && tag.value[0] == ByteOf(packetType)
      && BigEndianValue(tag.value[1..4]) == |payload|
      && tag.value[8..11] == [0, 0, 0]
      && tag.value[11..11 + |payload|] == payload
      && BigEndianValue(tag.value[11 + |payload|..]) == 11 + |payload|
      && TagTimestamp(tag.value) == time % 0x1_0000_0000
  {
    var len := |payload|;
    var tag := CreateFlvTag(NewFlvPacket(Some(payload), packetType, time)).value;
    var tsBytes := [TimestampByte(time, 16), TimestampByte(time, 8), TimestampByte(time, 0), TimestampByte(time, 24)];
    assert payload[..len] == payload;
    assert Zeros(0) == [];
    assert tag == [ByteOf(packetType)] + BigEndian(len, 3) + tsBytes + BigEndian(0, 3) + payload + BigEndian(11 + len, 4);
    TagSlices([ByteOf(packetType)], BigEndian(len, 3), tsBytes, BigEndian(0, 3), payload, BigEndian(11 + len, 4));
    BigEndianThree(0);
    BigEndianRoundTrip(len, 3);
    BigEndianRoundTrip(11 + len, 4);
    TimestampBytesValue(time);
    assert tsBytes[..3] == [TimestampByte(time, 16), TimestampByte(time, 8), TimestampByte(time, 0)];
  }

  /** Where the parts of a tag land once they are laid end to end. */
  lemma TagSlices(t: seq<byte>, l: seq<byte>, ts: seq<byte>, sid: seq<byte>, payload: seq<byte>, size: seq<byte>)
    requires |t| == 1 && |l| == 3 && |ts| == 4 && |sid| == 3 && |size| == 4
    ensures var tag := t + l + ts + sid + payload + size; var n := |payload|;
      && |tag| == n + 15
      && tag[0] == t[0]
      && tag[1..4] == l
      && tag[4..7] == ts[..3] && tag[7] == ts[3]
      && tag[8..11] == sid
      && tag[11..11 + n] == payload
      && tag[11 + n..] == size
  {
  }

  /** Reading a created tag back gives its type byte, its 32-bit timestamp and its payload. */
  lemma ParseCreateFlvTag(payload: seq<byte>, packetType: int, time: int)
    requires |payload| <= MAX_UINT24
    ensures ParseFlvTag(CreateFlvTag(NewFlvPacket(Some(payload), packetType, time)).value)
         == Some(TagFields(ByteOf(packetType), time % 0x1_0000_0000, payload))
  {
    CreateFlvTagLayout(payload, packetType, time);
  }

  // ---------------------------------------------------------------------------
  // FLV file header
  // ---------------------------------------------------------------------------

  /** `b |= mask` for a one-bit mask on a byte whose other bit in the mask is clear. */
  function SetFlag(b: byte, mask: byte, set_: bool): (r: byte)
    requires mask in {1, 4} && b in {0, 1, 4, 5} && (b / mask) % 2 == 0
    ensures r in {0, 1, 4, 5}
    ensures r == if set_ then b + mask else b
  {
    if set_ then b + mask else b
  }

  /**
    The 13-byte FLV header sent first to every player: "FLV", version 1, the
    type flags (0x04 when audio has been received, 0x01 when video has), data
    offset 9, then PreviousTagSize0 = 0.
  */
  function FlvHeader(firstAudioReceived: bool, firstVideoReceived: bool): (h: seq<byte>)
    ensures |h| == 13
  {
    var flags := SetFlag(SetFlag(0, 4, firstAudioReceived), 1, firstVideoReceived);
    [0x46, 0x4c, 0x56, 0x01, flags, 0x00, 0x00, 0x00, 0x09, 0x00, 0x00, 0x00, 0x00]
  }

  /** Bit `k` of a byte. */
  function Bit(b: byte, k: nat): (bit: nat)
    requires k < 8
    ensures bit < 2
  {
    (b / Pow2(k)) % 2
  }

  function Pow2(k: nat): (p: nat)
    ensures p >= 1
  {
    if k == 0 then 1 else 2 * Pow2(k - 1)
  }

  /**
    The header's signature, version, data offset and PreviousTagSize0 are fixed;
    of the flags byte exactly bit 2 (audio) and bit 0 (video) may be set, each
    iff that medium has been received.
  */
  lemma FlvHeaderLayout(audio: bool, video: bool)
    ensures var h := FlvHeader(audio, video);
      && h[..3] == [0x46, 0x4c, 0x56] && h[3] == 1
      && BigEndianValue(h[5..9]) == 9 && h[9..] == Zeros(4)
      && (Bit(h[4], 2) == 1 <==> audio)
      && (Bit(h[4], 0) == 1 <==> video)
      && forall k :: 0 <= k < 8 && k != 0 && k != 2 ==> Bit(h[4], k) == 0
  {
    var h := FlvHeader(audio, video);
    var f := h[4];
    assert f == (if audio then 4 else 0) + (if video then 1 else 0);
    assert Pow2(0) == 1 && Pow2(1) == 2 && Pow2(2) == 4;
    assert Pow2(3) == 8 && Pow2(4) == 16 && Pow2(5) == 32 && Pow2(6) == 64 && Pow2(7) == 128;
    assert h[5..9] == [0, 0, 0, 9];
    assert BigEndianValue([0, 0, 0, 9]) == 9 by {
      assert [0, 0, 0, 9][..3] == [0, 0, 0];
      assert [0, 0, 0][..2] == [0, 0] && [0, 0][..1] == [0] && [0][..0] == [];
    }
    forall k | 0 <= k < 8 && k != 0 && k != 2
      ensures Bit(f, k) == 0
    {
      assert f < 8;
    }
  }
}
