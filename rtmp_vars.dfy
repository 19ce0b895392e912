/**
  The RTMP wire constants of the server: handshake and chunk-parser states,
  chunk types with their message-header sizes (section 5.3.1.2 of the Adobe
  RTMP Specification 1.0), chunk-stream ids, message type ids (protocol
  control in section 5.4, user control in section 6.2, the others in
  section 7.1), and the pre-built protocol-control messages kept as hex text.
*/
module RtmpVars {
  import opened JsText
  import opened Bytes

  const FLASHVER := "LNX 9,0,124,2"
  const RTMP_OUT_CHUNK_SIZE := 60000
  const RTMP_PORT := 1935

  const RTMP_HANDSHAKE_SIZE := 1536
  const RTMP_HANDSHAKE_UNINIT := 0
  const RTMP_HANDSHAKE_0 := 1
  const RTMP_HANDSHAKE_1 := 2
  const RTMP_HANDSHAKE_2 := 3

  const RTMP_PARSE_INIT := 0
  const RTMP_PARSE_BASIC_HEADER := 1
  const RTMP_PARSE_MESSAGE_HEADER := 2
  const RTMP_PARSE_EXTENDED_TIMESTAMP := 3
  const RTMP_PARSE_PAYLOAD := 4

  const RTMP_CHUNK_HEADER_MAX := 18

  const RTMP_CHUNK_TYPE_0 := 0
  const RTMP_CHUNK_TYPE_1 := 1
  const RTMP_CHUNK_TYPE_2 := 2
  const RTMP_CHUNK_TYPE_3 := 3

  const RTMP_CHANNEL_PROTOCOL := 2
  const RTMP_CHANNEL_INVOKE := 3
  const RTMP_CHANNEL_AUDIO := 4
  const RTMP_CHANNEL_VIDEO := 5
  const RTMP_CHANNEL_DATA := 6

  /** Message-header size in bytes, indexed by chunk type (`fmt`). */
  const RTMP_HEADER_SIZE: seq<nat> := [11, 7, 3, 0]

  // Protocol control messages
  const RTMP_TYPE_SET_CHUNK_SIZE := 1
  const RTMP_TYPE_ABORT := 2
  const RTMP_TYPE_ACKNOWLEDGEMENT := 3
  const RTMP_TYPE_WINDOW_ACKNOWLEDGEMENT_SIZE := 5
  const RTMP_TYPE_SET_PEER_BANDWIDTH := 6
  // User control message
  const RTMP_TYPE_EVENT := 4
  // Media
  const RTMP_TYPE_AUDIO := 8
  const RTMP_TYPE_VIDEO := 9
  // Data, shared object and command messages (AMF3 / AMF0)
  const RTMP_TYPE_FLEX_STREAM := 15
  const RTMP_TYPE_DATA := 18
  const RTMP_TYPE_FLEX_OBJECT := 16
  const RTMP_TYPE_SHARED_OBJECT := 19
  const RTMP_TYPE_FLEX_MESSAGE := 17
  const RTMP_TYPE_INVOKE := 20
  // Aggregate message
  const RTMP_TYPE_METADATA := 22

  const RTMP_CHUNK_SIZE := 128
  const RTMP_PING_TIME := 60000
  const RTMP_PING_TIMEOUT := 30000

  const STREAM_BEGIN := 0x00
  const STREAM_EOF := 0x01
  const STREAM_DRY := 0x02
  const STREAM_EMPTY := 0x1f
  const STREAM_READY := 0x20

  const RTMP_TRANSACTION_CONNECT := 1
  const RTMP_TRANSACTION_CREATE_STREAM := 2
  const RTMP_TRANSACTION_GET_STREAM_LENGTH := 3

  const RTMP_ACK_PACKET_HEX := "02000000000004030000000000000000"
  const RTMP_WINDOW_ACK_PACKET_HEX := "02000000000004050000000000000000"
  const RTMP_PEER_BANDWIDTH_PACKET_HEX := "0200000000000506000000000000000000"
  const RTMP_CHUNK_SIZE_PACKET_HEX := "0200000000000506000000000000000000"
  const RTMP_STREAM_STATUS_PACKET_HEX := "020000000000060400000000000000000000"

  // ---------------------------------------------------------------------------
  // Chunk-header layout
  // ---------------------------------------------------------------------------

  /** The fields a chunk message header may carry. */
  datatype HeaderField = Timestamp | TimestampDelta | MessageLength | MessageTypeId | MessageStreamId

  function FieldWidth(f: HeaderField): nat {
    match f
    case Timestamp => 3
    case TimestampDelta => 3
    case MessageLength => 3
    case MessageTypeId => 1
    case MessageStreamId => 4
  }

  /** The fields of the message header of each chunk type, in wire order. */
  function Layout(fmt: nat): seq<HeaderField>
    requires fmt < 4
  {
    if fmt == RTMP_CHUNK_TYPE_0 then [Timestamp, MessageLength, MessageTypeId, MessageStreamId]
    else if fmt == RTMP_CHUNK_TYPE_1 then [TimestampDelta, MessageLength, MessageTypeId]
    else if fmt == RTMP_CHUNK_TYPE_2 then [TimestampDelta]
    else []
  }

  function LayoutWidth(fields: seq<HeaderField>): nat {
    if fields == [] then 0 else FieldWidth(fields[0]) + LayoutWidth(fields[1..])
  }

  /** The header-size table agrees with the field layout of every chunk type. */
  lemma HeaderSizeMatchesLayout(fmt: nat)
    requires fmt < 4
    ensures |RTMP_HEADER_SIZE| == 4
    ensures RTMP_HEADER_SIZE[fmt] == LayoutWidth(Layout(fmt))
  {
    var l := Layout(fmt);
    if fmt < 3 {
      assert LayoutWidth(l) == FieldWidth(l[0]) + LayoutWidth(l[1..]);
    }
    if fmt < 2 {
      assert LayoutWidth(l[1..]) == FieldWidth(l[1]) + LayoutWidth(l[2..]);
      assert LayoutWidth(l[2..]) == FieldWidth(l[2]) + LayoutWidth(l[3..]);
    }
    if fmt == 0 {
      assert LayoutWidth(l[3..]) == FieldWidth(l[3]) + LayoutWidth(l[4..]);
    }
  }

  /** Only type 0 carries an absolute timestamp and a stream id; type 3 carries nothing. */
  lemma HeaderFieldsByType()
    ensures Timestamp in Layout(0) && MessageStreamId in Layout(0)
    ensures forall fmt :: 1 <= fmt < 4 ==> Timestamp !in Layout(fmt) && MessageStreamId !in Layout(fmt)
    ensures Layout(3) == []
  {
  }

  /** Largest basic header: 2 bits of chunk type + 22 bits of chunk-stream id. */
  const MAX_BASIC_HEADER_SIZE := 3
  /** Extended timestamp, present when the 3-byte field holds 0xFFFFFF. */
  const EXTENDED_TIMESTAMP_SIZE := 4

  /** The largest chunk header is a 3-byte basic header, a type-0 header and an extended timestamp. */
  lemma ChunkHeaderMax()
    ensures RTMP_CHUNK_HEADER_MAX == MAX_BASIC_HEADER_SIZE + RTMP_HEADER_SIZE[RTMP_CHUNK_TYPE_0] + EXTENDED_TIMESTAMP_SIZE
  {
  }

  /** States and codes are consecutive and distinct where they share a field. */
  lemma StateAndTypeCodes()
    ensures [RTMP_HANDSHAKE_UNINIT, RTMP_HANDSHAKE_0, RTMP_HANDSHAKE_1, RTMP_HANDSHAKE_2] == [0, 1, 2, 3]
    ensures [RTMP_PARSE_INIT, RTMP_PARSE_BASIC_HEADER, RTMP_PARSE_MESSAGE_HEADER,
             RTMP_PARSE_EXTENDED_TIMESTAMP, RTMP_PARSE_PAYLOAD] == [0, 1, 2, 3, 4]
    ensures ProtocolControlTypes() == {1, 2, 3, 5, 6} && RTMP_TYPE_EVENT == 4
    ensures RTMP_TYPE_EVENT !in ProtocolControlTypes()
    ensures ProtocolControlTypes() !! MediaTypes() && ProtocolControlTypes() !! CommandAndDataTypes()
    ensures MediaTypes() !! CommandAndDataTypes() && RTMP_TYPE_EVENT !in MediaTypes() + CommandAndDataTypes()
  {
  }

  function ProtocolControlTypes(): set<int> {
    {RTMP_TYPE_SET_CHUNK_SIZE, RTMP_TYPE_ABORT, RTMP_TYPE_ACKNOWLEDGEMENT,
     RTMP_TYPE_WINDOW_ACKNOWLEDGEMENT_SIZE, RTMP_TYPE_SET_PEER_BANDWIDTH}
  }

  function MediaTypes(): set<int> {
    {RTMP_TYPE_AUDIO, RTMP_TYPE_VIDEO}
  }

  function CommandAndDataTypes(): set<int> {
    {RTMP_TYPE_FLEX_STREAM, RTMP_TYPE_FLEX_OBJECT, RTMP_TYPE_FLEX_MESSAGE, RTMP_TYPE_DATA,
     RTMP_TYPE_SHARED_OBJECT, RTMP_TYPE_INVOKE, RTMP_TYPE_METADATA}
  }

  // ---------------------------------------------------------------------------
  // The pre-built control messages
  // ---------------------------------------------------------------------------

  /** The header of a single-chunk type-0 message as it sits on the wire. */
  datatype Type0Chunk = Type0Chunk(fmt: nat, cid: nat, timestamp: nat, length: nat, typeId: nat, streamId: nat, payload: seq<byte>)

  /** The basic-header byte of a chunk on a chunk-stream id below 64. */
  function BasicHeaderByte(fmt: nat, cid: nat): byte
    requires fmt < 4 && cid < 64
  {
    fmt * 64 + cid
  }

  /** Reads a one-byte-basic-header, type-0 chunk (the stream id is little-endian). */
  function ParseType0Chunk(bs: seq<byte>): (c: Option<Type0Chunk>)
    ensures c.Some? ==> |bs| >= 12 && c.value.fmt < 4 && 2 <= c.value.cid < 64
    ensures c.Some? ==> BasicHeaderByte(c.value.fmt, c.value.cid) == bs[0]
    ensures c.Some? ==> c.value.payload == bs[12..] && c.value.typeId == bs[7]
  {
    if |bs| < 12 || bs[0] % 64 < 2 then None
    else Some(Type0Chunk(bs[0] / 64, bs[0] % 64, BigEndianValue(bs[1..4]), BigEndianValue(bs[4..7]),
                         bs[7], BigEndianValue([bs[11], bs[10], bs[9], bs[8]]), bs[12..]))
  }

  /** A protocol-control message of the given type, complete in one chunk on the protocol channel. */
  predicate IsControlMessage(bs: seq<byte>, typeId: nat) {
    match ParseType0Chunk(bs)
    case None => false
    case Some(c) =>
      && c.fmt == RTMP_CHUNK_TYPE_0 && c.cid == RTMP_CHANNEL_PROTOCOL
      && c.timestamp == 0 && c.streamId == 0
      && c.length == |c.payload|
      && c.typeId == typeId
  }

  /**
    The control messages the server pre-builds: one type-0 chunk on the protocol
    channel, timestamp 0, stream 0, carrying `len` zero bytes of payload.
  */
  function ControlTemplate(len: nat, typeId: nat): (bs: seq<byte>)
    requires len < 256 && typeId < 256
    ensures |bs| == 12 + len
  {
    [2, 0, 0, 0, 0, 0, len, typeId] + Zeros(4 + len)
  }

  lemma ControlTemplateIsControlMessage(len: nat, typeId: nat)
    requires len < 256 && typeId < 256
    ensures IsControlMessage(ControlTemplate(len, typeId), typeId)
  {
    var bs := ControlTemplate(len, typeId);
    assert bs[1..4] == [0, 0, 0] && bs[4..7] == [0, 0, len];
    assert BigEndianValue([0, 0, len]) == len by {
      assert [0, 0, len][..2] == [0, 0] && [0, 0][..1] == [0];
    }
    assert BigEndianValue([0, 0, 0]) == 0 by {
      assert [0, 0, 0][..2] == [0, 0] && [0, 0][..1] == [0];
    }
    assert BigEndianValue([bs[11], bs[10], bs[9], bs[8]]) == 0 by {
      assert [bs[11], bs[10], bs[9], bs[8]] == Zeros(4);
      ZerosValue(4);
    }
  }

  lemma {:induction false} ZerosValue(n: nat)
    ensures BigEndianValue(Zeros(n)) == 0
  {
    if n > 0 {
      assert Zeros(n)[..n - 1] == Zeros(n - 1);
      ZerosValue(n - 1);
    }
  }

  /** The hex text of a control template with a one-digit length and type. */
  lemma ControlTemplateHex(len: nat, typeId: nat)
    requires len < 16 && typeId < 16
    ensures HexEncode(ControlTemplate(len, typeId))
         == "0200000000000" + [HexChar(len)] + "0" + [HexChar(typeId)] + ZeroText(8 + 2 * len)
  {
    var head := [2, 0, 0, 0, 0, 0, len, typeId];
    HexEncodeAppend(head, Zeros(4 + len));
    HexEncodeZeros(4 + len);
    HeadHex(len, typeId);
  }

  lemma HeadHex(len: nat, typeId: nat)
    requires len < 16 && typeId < 16
    ensures HexEncode([2, 0, 0, 0, 0, 0, len, typeId]) == "0200000000000" + [HexChar(len)] + "0" + [HexChar(typeId)]
  {
    var z := HexEncode([len, typeId]);
    assert z == [HexChar(0), HexChar(len)] + HexEncode([typeId]) by {
      assert [len, typeId][1..] == [typeId];
    }
    assert HexEncode([typeId]) == [HexChar(0), HexChar(typeId)] by {
      assert [typeId][1..] == [];
    }
    assert HexChar(0) == '0' && HexChar(2) == '2';
    HexEncodeAppend([2, 0, 0, 0, 0, 0], [len, typeId]);
    assert [2, 0, 0, 0, 0, 0] + [len, typeId] == [2, 0, 0, 0, 0, 0, len, typeId];
    ZeroHead();
  }

  lemma ZeroHead()
    ensures HexEncode([2, 0, 0, 0, 0, 0]) == "020000000000"
  {
    assert [2, 0, 0, 0, 0, 0] == [2] + Zeros(5);
    HexEncodeAppend([2], Zeros(5));
    HexEncodeZeros(5);
    assert HexEncode([2]) == "02" by {
      assert [2][1..] == [];
      assert HexChar(0) == '0' && HexChar(2) == '2';
    }
  }

  /**
    `Buffer.from(hex, 'hex')` of each pre-built hex text is the control
    message its name announces: ACK and window-ack size with a 4-byte payload,
    peer bandwidth with a 5-byte payload, and the stream-status user-control
    event with a 6-byte payload.
  */
  lemma AckTemplate()
    ensures HexDecode(RTMP_ACK_PACKET_HEX) == ControlTemplate(4, RTMP_TYPE_ACKNOWLEDGEMENT)
    ensures IsControlMessage(HexDecode(RTMP_ACK_PACKET_HEX), RTMP_TYPE_ACKNOWLEDGEMENT)
  {
    assert ZeroText(16) == "0000000000000000";
    TemplateFromHex(4, 3, RTMP_ACK_PACKET_HEX);
  }

  lemma WindowAckTemplate()
    ensures HexDecode(RTMP_WINDOW_ACK_PACKET_HEX) == ControlTemplate(4, RTMP_TYPE_WINDOW_ACKNOWLEDGEMENT_SIZE)
    ensures IsControlMessage(HexDecode(RTMP_WINDOW_ACK_PACKET_HEX), RTMP_TYPE_WINDOW_ACKNOWLEDGEMENT_SIZE)
  {
    assert ZeroText(16) == "0000000000000000";
    TemplateFromHex(4, 5, RTMP_WINDOW_ACK_PACKET_HEX);
  }

  /** The chunk-size text is the same bytes as the peer-bandwidth text. */
  lemma PeerBandwidthTemplate()
    ensures HexDecode(RTMP_PEER_BANDWIDTH_PACKET_HEX) == ControlTemplate(5, RTMP_TYPE_SET_PEER_BANDWIDTH)
    ensures IsControlMessage(HexDecode(RTMP_PEER_BANDWIDTH_PACKET_HEX), RTMP_TYPE_SET_PEER_BANDWIDTH)
    ensures HexDecode(RTMP_CHUNK_SIZE_PACKET_HEX) == HexDecode(RTMP_PEER_BANDWIDTH_PACKET_HEX)
  {
    assert ZeroText(18) == "000000000000000000";
    TemplateFromHex(5, 6, RTMP_PEER_BANDWIDTH_PACKET_HEX);
  }

  lemma StreamStatusTemplate()
    ensures HexDecode(RTMP_STREAM_STATUS_PACKET_HEX) == ControlTemplate(6, RTMP_TYPE_EVENT)
    ensures IsControlMessage(HexDecode(RTMP_STREAM_STATUS_PACKET_HEX), RTMP_TYPE_EVENT)
  {
    assert ZeroText(20) == "00000000000000000000";
    TemplateFromHex(6, 4, RTMP_STREAM_STATUS_PACKET_HEX);
  }

  lemma TemplateFromHex(len: nat, typeId: nat, hex: string)
    requires len < 10 && typeId < 10
    requires hex == "0200000000000" + [('0' as int + len) as char] + "0" + [('0' as int + typeId) as char] + ZeroText(8 + 2 * len)
    ensures HexDecode(hex) == ControlTemplate(len, typeId)
    ensures IsControlMessage(HexDecode(hex), typeId)
  {
    ControlTemplateHex(len, typeId);
    HexRoundTrip(ControlTemplate(len, typeId));
    ControlTemplateIsControlMessage(len, typeId);
  }
}
