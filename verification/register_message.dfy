/**
 * ClientRegister: a client's signed registration for the upcoming round.
 * Its payload is (peer id, round id, ephemeral key, optional data); the
 * signature covers the payload only. The layout coincides field for
 * field with ServerAgree's, so the codec below mirrors AgreeMessage's.
 */
module RegisterMessage {
  import opened Common
  import opened Wire

  datatype ClientRegister = ClientRegister(
    packet: Bytes,
    payload: Bytes,
    signature: Bytes,
    peerId: Id,
    roundId: Bytes,
    key: Bytes,
    optional: Bytes)

  function EncodeFields(peerId: Id, roundId: Bytes, key: Bytes, optional: Bytes): Bytes
  {
    EncodeId(peerId) + (EncodeBytes(roundId) + (EncodeBytes(key) + EncodeBytes(optional)))
  }

  function FromFields(peerId: Id, roundId: Bytes, key: Bytes, optional: Bytes): (r: ClientRegister)
    ensures r.packet == [] && r.signature == []
    ensures r.peerId == peerId && r.roundId == roundId && r.key == key && r.optional == optional
  {
    ClientRegister([], EncodeFields(peerId, roundId, key, optional), [],
      peerId, roundId, key, optional)
  }

  function FromPacket(packet: Bytes): (r: ClientRegister)
    ensures r.packet == packet
    ensures (r.payload, r.signature) == OpenEnvelope(packet)
  {
    var (payload, signature) := OpenEnvelope(packet);
    var id := ReadId(Open(payload));
    var round := ReadBytes(id.next);
    var key := ReadBytes(round.next);
    var optional := ReadBytes(key.next);
    ClientRegister(packet, payload, signature, id.value, round.value, key.value, optional.value)
  }

  function SetSignature(reg: ClientRegister, signature: Bytes): (r: ClientRegister)
    ensures r.payload == reg.payload
    ensures r.signature == signature
    ensures OpenEnvelope(r.packet) == (reg.payload, signature)
    ensures r.peerId == reg.peerId && r.roundId == reg.roundId
    ensures r.key == reg.key && r.optional == reg.optional
  {
    OpenEnvelopeRoundTrip(reg.payload, signature);
    reg.(signature := signature, packet := Envelope(reg.payload, signature))
  }

  function Write(reg: ClientRegister): Bytes
  {
    EncodeBytes(reg.packet)
  }

  function ReadFrom(r: Reader): Read<ClientRegister>
  {
    var data := ReadBytes(r);
    Read(FromPacket(data.value), data.next)
  }

  lemma ReadEncodedFields(peerId: Id, roundId: Bytes, key: Bytes, optional: Bytes)
    ensures var id := ReadId(Open(EncodeFields(peerId, roundId, key, optional)));
            var rd := ReadBytes(id.next);
            var k := ReadBytes(rd.next);
            var o := ReadBytes(k.next);
            id.value == peerId && rd.value == roundId && k.value == key && o.value == optional
  {
    var tail3 := EncodeBytes(optional);
    var tail2 := EncodeBytes(key) + tail3;
    var tail1 := EncodeBytes(roundId) + tail2;
    ReadNatEncoded(peerId, tail1);
    ReadBytesEncoded(roundId, tail2);
    ReadBytesEncoded(key, tail3);
    assert tail3 == EncodeBytes(optional) + [];
    ReadBytesEncoded(optional, []);
  }

  /** A signed registration parses back to itself, round id included. */
  lemma RoundTrip(peerId: Id, roundId: Bytes, key: Bytes, optional: Bytes, signature: Bytes)
    ensures var reg := SetSignature(FromFields(peerId, roundId, key, optional), signature);
            FromPacket(reg.packet) == reg
  {
    var reg := SetSignature(FromFields(peerId, roundId, key, optional), signature);
    OpenEnvelopeRoundTrip(reg.payload, signature);
    ReadEncodedFields(peerId, roundId, key, optional);
  }

  lemma StreamRoundTrip(reg: ClientRegister, rest: Bytes)
    requires FromPacket(reg.packet) == reg
    ensures ReadFrom(Open(Write(reg) + rest)) == Read(reg, Open(rest))
  {
    ReadBytesEncoded(reg.packet, rest);
  }

  // ---------------------------------------------------------------------
  // SerializeList<ClientRegister> / DeserializeList<ClientRegister>
  // ---------------------------------------------------------------------

  /** A registration survives a trip through its own packet. */
  predicate Reparses(reg: ClientRegister)
  {
    FromPacket(reg.packet) == reg
  }

  function Packets(regs: seq<ClientRegister>): (r: seq<Bytes>)
    ensures |r| == |regs|
    ensures forall i :: 0 <= i < |regs| ==> r[i] == regs[i].packet
  {
    seq(|regs|, i requires 0 <= i < |regs| => regs[i].packet)
  }

  /** A list of registrations as bytes: the list of their packets. */
  function SerializeList(regs: seq<ClientRegister>): Bytes
  {
    EncodeList(Packets(regs))
  }

  /** Reads a list of packets and parses each as a registration. */
  function DeserializeList(data: Bytes): (r: seq<ClientRegister>)
    ensures forall i :: 0 <= i < |r| ==> Reparses(r[i])
  {
    var packets := ReadList(Open(data)).value;
    forall i | 0 <= i < |packets| ensures Reparses(FromPacket(packets[i])) { }
    seq(|packets|, i requires 0 <= i < |packets| => FromPacket(packets[i]))
  }

  /** Deserialising a serialised list of parsed registrations gives the list back, in order. */
  lemma ListRoundTrip(regs: seq<ClientRegister>)
    requires forall i :: 0 <= i < |regs| ==> Reparses(regs[i])
    ensures DeserializeList(SerializeList(regs)) == regs
  {
    assert SerializeList(regs) == SerializeList(regs) + [];
    ReadListEncoded(Packets(regs), []);
  }
}
