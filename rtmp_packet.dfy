/**
  The records the RTMP chunk layer fills in while it reads a message: a
  chunk-stream header and a packet that owns one.
*/
module RtmpPacket {
  import opened JsText
  import opened Bytes

  /** `RtmpPacketHeader`: chunk type and chunk-stream id, then the message header fields. */
  datatype RtmpPacketHeader = RtmpPacketHeader(fmt: int, cid: int, timestamp: int, length: int, packetType: int, streamId: int)

  /** `new RtmpPacketHeader(fmt, cid)`: the message fields start at 0. */
  function NewRtmpPacketHeader(fmt: int := 0, cid: int := 0): (h: RtmpPacketHeader)
    ensures h.fmt == fmt && h.cid == cid
    ensures h.timestamp == 0 && h.length == 0 && h.packetType == 0 && h.streamId == 0
  {
    RtmpPacketHeader(fmt, cid, 0, 0, 0, 0)
  }

  /**
    `RtmpPacket`: the header, the clock, the payload buffer (unset until the
    chunk layer allocates one), its capacity and the bytes received so far.
  */
  datatype RtmpPacket = RtmpPacket(header: RtmpPacketHeader, clock: int, payload: Option<seq<byte>>, capacity: int, bytes: int)

  /** `new RtmpPacket(fmt, cid)`. */
  function NewRtmpPacket(fmt: int := 0, cid: int := 0): (p: RtmpPacket)
    ensures p.header == NewRtmpPacketHeader(fmt, cid)
    ensures p.clock == 0 && p.capacity == 0 && p.bytes == 0 && p.payload.None?
  {
    RtmpPacket(NewRtmpPacketHeader(fmt, cid), 0, None, 0, 0)
  }

  /**
    A new packet is empty, and its header carries the chunk type and the
    chunk-stream id it was created with; omitted arguments mean type 0 on
    chunk stream 0.
  */
  lemma NewRtmpPacketDefaults(fmt: int, cid: int)
    ensures NewRtmpPacket(fmt, cid).header.fmt == fmt && NewRtmpPacket(fmt, cid).header.cid == cid
    ensures NewRtmpPacket(fmt, cid).header.length == 0 && NewRtmpPacket(fmt, cid).bytes == 0
    ensures NewRtmpPacket() == NewRtmpPacket(0, 0) && NewRtmpPacketHeader() == NewRtmpPacketHeader(0, 0)
    ensures NewRtmpPacket(fmt) == NewRtmpPacket(fmt, 0)
  {
  }
}
