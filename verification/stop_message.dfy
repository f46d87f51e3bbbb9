/**
 * ServerStop: a server's signed request to stop, with payload
 * (round id, immediate flag, reason).
 */
module StopMessage {
  import opened Common
  import opened Wire

  /** The reason is a QString; its text is kept as the bytes of its encoding. */
  datatype ServerStop = ServerStop(
    packet: Bytes,
    payload: Bytes,
    signature: Bytes,
    roundId: Bytes,
    immediate: bool,
    reason: Bytes)

  function EncodeFields(roundId: Bytes, immediate: bool, reason: Bytes): Bytes
  {
    EncodeBytes(roundId) + (EncodeBool(immediate) + EncodeBytes(reason))
  }

  function FromFields(roundId: Bytes, immediate: bool, reason: Bytes): (r: ServerStop)
    ensures r.packet == [] && r.signature == []
    ensures r.roundId == roundId && r.immediate == immediate && r.reason == reason
  {
    ServerStop([], EncodeFields(roundId, immediate, reason), [], roundId, immediate, reason)
  }

  function FromPacket(packet: Bytes): (r: ServerStop)
    ensures r.packet == packet
    ensures (r.payload, r.signature) == OpenEnvelope(packet)
  {
    var (payload, signature) := OpenEnvelope(packet);
    var round := ReadBytes(Open(payload));
    var immediate := ReadBool(round.next);
    var reason := ReadBytes(immediate.next);
    ServerStop(packet, payload, signature, round.value, immediate.value, reason.value)
  }

  function SetSignature(stop: ServerStop, signature: Bytes): (r: ServerStop)
    ensures r.payload == stop.payload
    ensures r.signature == signature
    ensures OpenEnvelope(r.packet) == (stop.payload, signature)
    ensures r.roundId == stop.roundId && r.immediate == stop.immediate && r.reason == stop.reason
  {
    OpenEnvelopeRoundTrip(stop.payload, signature);
    stop.(signature := signature, packet := Envelope(stop.payload, signature))
  }

  function Write(stop: ServerStop): Bytes
  {
    EncodeBytes(stop.packet)
  }

  function ReadFrom(r: Reader): Read<ServerStop>
  {
    var data := ReadBytes(r);
    Read(FromPacket(data.value), data.next)
  }

  lemma ReadEncodedFields(roundId: Bytes, immediate: bool, reason: Bytes)
    ensures var rd := ReadBytes(Open(EncodeFields(roundId, immediate, reason)));
            var im := ReadBool(rd.next);
            var rs := ReadBytes(im.next);
            rd.value == roundId && im.value == immediate && rs.value == reason
  {
    var tail2 := EncodeBytes(reason);
    var tail1 := EncodeBool(immediate) + tail2;
    ReadBytesEncoded(roundId, tail1);
    ReadBoolEncoded(immediate, tail2);
    assert tail2 == EncodeBytes(reason) + [];
    ReadBytesEncoded(reason, []);
  }

  /** A signed Stop parses back to itself: round id, immediate flag and reason. */
  lemma RoundTrip(roundId: Bytes, immediate: bool, reason: Bytes, signature: Bytes)
    ensures var stop := SetSignature(FromFields(roundId, immediate, reason), signature);
            FromPacket(stop.packet) == stop
  {
    var stop := SetSignature(FromFields(roundId, immediate, reason), signature);
    OpenEnvelopeRoundTrip(stop.payload, signature);
    ReadEncodedFields(roundId, immediate, reason);
  }

  lemma StreamRoundTrip(stop: ServerStop, rest: Bytes)
    requires FromPacket(stop.packet) == stop
    ensures ReadFrom(Open(Write(stop) + rest)) == Read(stop, Open(rest))
  {
    ReadBytesEncoded(stop.packet, rest);
  }
}
