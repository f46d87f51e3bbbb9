/**
 * ServerAgree: a server's signed agreement on the round id, carrying the
 * ephemeral key and optional data it enlisted with. Its class definition
 * is not part of this model; the layout used here is the one its
 * constructor call and accessors imply, (peer id, round id, ephemeral key,
 * optional data) inside the usual (payload, signature) envelope, the same
 * layout ClientRegister has.
 */
module AgreeMessage {
  import opened Common
  import opened Wire

  datatype ServerAgree = ServerAgree(
    packet: Bytes,
    payload: Bytes,
    signature: Bytes,
    peerId: Id,
    roundId: Bytes,
    key: Bytes,
    optional: Bytes)

  function EncodeFields(peerId: Id, roundId: Bytes, key: Bytes, optional: Bytes): Bytes
  {
    EncodeId(peerId) + (EncodeBytes(roundId) + (EncodeBytes(key) + EncodeBytes(optional)))
  }

  function FromFields(peerId: Id, roundId: Bytes, key: Bytes, optional: Bytes): (r: ServerAgree)
    ensures r.packet == [] && r.signature == []
    ensures r.peerId == peerId && r.roundId == roundId && r.key == key && r.optional == optional
  {
    ServerAgree([], EncodeFields(peerId, roundId, key, optional), [],
      peerId, roundId, key, optional)
  }

  function FromPacket(packet: Bytes): (r: ServerAgree)
    ensures r.packet == packet
    ensures (r.payload, r.signature) == OpenEnvelope(packet)
  {
    var (payload, signature) := OpenEnvelope(packet);
    var id := ReadId(Open(payload));
    var round := ReadBytes(id.next);
    var key := ReadBytes(round.next);
    var optional := ReadBytes(key.next);
    ServerAgree(packet, payload, signature, id.value, round.value, key.value, optional.value)
  }

  function SetSignature(agree: ServerAgree, signature: Bytes): (r: ServerAgree)
    ensures r.payload == agree.payload
    ensures r.signature == signature
    ensures OpenEnvelope(r.packet) == (agree.payload, signature)
    ensures r.peerId == agree.peerId && r.roundId == agree.roundId
    ensures r.key == agree.key && r.optional == agree.optional
  {
    OpenEnvelopeRoundTrip(agree.payload, signature);
    agree.(signature := signature, packet := Envelope(agree.payload, signature))
  }

  function Write(agree: ServerAgree): Bytes
  {
    EncodeBytes(agree.packet)
  }

  function ReadFrom(r: Reader): Read<ServerAgree>
  {
    var data := ReadBytes(r);
    Read(FromPacket(data.value), data.next)
  }

  lemma ReadEncodedFields(peerId: Id, roundId: Bytes, key: Bytes, optional: Bytes)
    ensures var id := ReadId(Open(EncodeFields(peerId, roundId, key, optional)));
            var rd := ReadBytes(id.next);
            var k := ReadBytes(rd.next);
            var o := ReadBytes(k.next);
            id.value == peerId && rd.value == roundId && k.value == key && o.value == optional
  {
    var tail3 := EncodeBytes(optional);
    var tail2 := EncodeBytes(key) + tail3;
    var tail1 := EncodeBytes(roundId) + tail2;
    ReadNatEncoded(peerId, tail1);
    ReadBytesEncoded(roundId, tail2);
    ReadBytesEncoded(key, tail3);
    assert tail3 == EncodeBytes(optional) + [];
    ReadBytesEncoded(optional, []);
  }

  /** A signed agreement parses back to itself. */
  lemma RoundTrip(peerId: Id, roundId: Bytes, key: Bytes, optional: Bytes, signature: Bytes)
    ensures var agree := SetSignature(FromFields(peerId, roundId, key, optional), signature);
            FromPacket(agree.packet) == agree
  {
    var agree := SetSignature(FromFields(peerId, roundId, key, optional), signature);
    OpenEnvelopeRoundTrip(agree.payload, signature);
    ReadEncodedFields(peerId, roundId, key, optional);
  }

  lemma StreamRoundTrip(agree: ServerAgree, rest: Bytes)
    requires FromPacket(agree.packet) == agree
    ensures ReadFrom(Open(Write(agree) + rest)) == Read(agree, Open(rest))
  {
    ReadBytesEncoded(agree.packet, rest);
  }

  // ---------------------------------------------------------------------
  // SerializeList<ServerAgree> / DeserializeList<ServerAgree>
  // ---------------------------------------------------------------------

  /** An agreement survives a trip through its own packet. */
  predicate Reparses(agree: ServerAgree)
  {
    FromPacket(agree.packet) == agree
  }

  function Packets(agrees: seq<ServerAgree>): (r: seq<Bytes>)
    ensures |r| == |agrees|
    ensures forall i :: 0 <= i < |agrees| ==> r[i] == agrees[i].packet
  {
    seq(|agrees|, i requires 0 <= i < |agrees| => agrees[i].packet)
  }

  /** A list of agreements as bytes: the list of their packets. */
  function SerializeList(agrees: seq<ServerAgree>): Bytes
  {
    EncodeList(Packets(agrees))
  }

  /** Reads a list of packets and parses each as an agreement. */
  function DeserializeList(data: Bytes): (r: seq<ServerAgree>)
    ensures forall i :: 0 <= i < |r| ==> Reparses(r[i])
  {
    var packets := ReadList(Open(data)).value;
    forall i | 0 <= i < |packets| ensures Reparses(FromPacket(packets[i])) { }
    seq(|packets|, i requires 0 <= i < |packets| => FromPacket(packets[i]))
  }

  /** Deserialising a serialised list of parsed agreements gives the list back, in order. */
  lemma ListRoundTrip(agrees: seq<ServerAgree>)
    requires forall i :: 0 <= i < |agrees| ==> Reparses(agrees[i])
    ensures DeserializeList(SerializeList(agrees)) == agrees
  {
    assert SerializeList(agrees) == SerializeList(agrees) + [];
    ReadListEncoded(Packets(agrees), []);
  }
}
