/**
 * ServerInit: the proposer's signed invitation to begin a round. Its
 * payload is (peer id, nonce, timestamp, group id); the packet is the
 * (payload, signature) envelope.
 */
module InitMessage {
  import opened Common
  import opened Wire

  datatype ServerInit = ServerInit(
    packet: Bytes,
    payload: Bytes,
    signature: Bytes,
    peerId: Id,
    nonce: Bytes,
    timestamp: int64,
    groupId: Bytes)

  /** The payload bytes: the four fields in declaration order. */
  function EncodeFields(peerId: Id, nonce: Bytes, timestamp: int64, groupId: Bytes): Bytes
  {
    EncodeId(peerId) + (EncodeBytes(nonce) + (EncodeInt64(timestamp) + EncodeBytes(groupId)))
  }

  /**
   * The field constructor: the payload is written, the packet and the
   * signature stay empty until SetSignature.
   */
  function FromFields(peerId: Id, nonce: Bytes, timestamp: int64, groupId: Bytes): (r: ServerInit)
    ensures r.packet == [] && r.signature == []
    ensures r.peerId == peerId && r.nonce == nonce
    ensures r.timestamp == timestamp && r.groupId == groupId
  {
    ServerInit([], EncodeFields(peerId, nonce, timestamp, groupId), [],
      peerId, nonce, timestamp, groupId)
  }

  /** The packet constructor: open the envelope, then read the fields from the payload. */
  function FromPacket(packet: Bytes): (r: ServerInit)
    ensures r.packet == packet
    ensures (r.payload, r.signature) == OpenEnvelope(packet)
  {
    var (payload, signature) := OpenEnvelope(packet);
    var id := ReadId(Open(payload));
    var nonce := ReadBytes(id.next);
    var time := ReadInt64(nonce.next);
    var group := ReadBytes(time.next);
    ServerInit(packet, payload, signature, id.value, nonce.value, time.value, group.value)
  }

  /** Sets the signature and rebuilds the packet from the unchanged payload. */
  function SetSignature(init: ServerInit, signature: Bytes): (r: ServerInit)
    ensures r.payload == init.payload
    ensures r.signature == signature
    ensures OpenEnvelope(r.packet) == (init.payload, signature)
    ensures r.peerId == init.peerId && r.nonce == init.nonce
    ensures r.timestamp == init.timestamp && r.groupId == init.groupId
  {
    OpenEnvelopeRoundTrip(init.payload, signature);
    init.(signature := signature, packet := Envelope(init.payload, signature))
  }

  /** `operator<<`: the packet as one byte-array field. */
  function Write(init: ServerInit): Bytes
  {
    EncodeBytes(init.packet)
  }

  /** `operator>>`: read a byte array and rebuild the Init from it. */
  function ReadFrom(r: Reader): Read<ServerInit>
  {
    var data := ReadBytes(r);
    Read(FromPacket(data.value), data.next)
  }

  lemma ReadEncodedFields(peerId: Id, nonce: Bytes, timestamp: int64, groupId: Bytes)
    ensures var id := ReadId(Open(EncodeFields(peerId, nonce, timestamp, groupId)));
            var n := ReadBytes(id.next);
            var t := ReadInt64(n.next);
            var g := ReadBytes(t.next);
            id.value == peerId && n.value == nonce && t.value == timestamp && g.value == groupId
  {
    var tail3 := EncodeBytes(groupId);
    var tail2 := EncodeInt64(timestamp) + tail3;
    var tail1 := EncodeBytes(nonce) + tail2;
    ReadNatEncoded(peerId, tail1);
    ReadBytesEncoded(nonce, tail2);
    ReadInt64Encoded(timestamp, tail3);
    assert tail3 == EncodeBytes(groupId) + [];
    ReadBytesEncoded(groupId, []);
  }

  /** A packet built from fields and signed parses back to the very same Init. */
  lemma RoundTrip(peerId: Id, nonce: Bytes, timestamp: int64, groupId: Bytes, signature: Bytes)
    ensures var init := SetSignature(FromFields(peerId, nonce, timestamp, groupId), signature);
            FromPacket(init.packet) == init
  {
    var init := SetSignature(FromFields(peerId, nonce, timestamp, groupId), signature);
    OpenEnvelopeRoundTrip(init.payload, signature);
    ReadEncodedFields(peerId, nonce, timestamp, groupId);
  }

  /** An Init that is its packet's parse is rebuilt unchanged by `>>` after `<<`. */
  lemma StreamRoundTrip(init: ServerInit, rest: Bytes)
    requires FromPacket(init.packet) == init
    ensures ReadFrom(Open(Write(init) + rest)) == Read(init, Open(rest))
  {
    ReadBytesEncoded(init.packet, rest);
  }
}
