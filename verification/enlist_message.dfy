/**
 * ServerEnlist: a server's signed offer to take part in the round the
 * embedded Init proposes. Its payload is (peer id, Init packet, ephemeral
 * key, optional data); parsing re-parses the embedded Init from its packet.
 */
module EnlistMessage {
  import opened Common
  import opened Wire
  import InitMessage

  datatype ServerEnlist = ServerEnlist(
    packet: Bytes,
    payload: Bytes,
    signature: Bytes,
    peerId: Id,
    init: InitMessage.ServerInit,
    key: Bytes,
    optional: Bytes)

  function EncodeFields(peerId: Id, initPacket: Bytes, key: Bytes, optional: Bytes): Bytes
  {
    EncodeId(peerId) + (EncodeBytes(initPacket) + (EncodeBytes(key) + EncodeBytes(optional)))
  }

  /** The field constructor: the embedded Init is written as its packet. */
  function FromFields(peerId: Id, init: InitMessage.ServerInit, key: Bytes, optional: Bytes): (r: ServerEnlist)
    ensures r.packet == [] && r.signature == []
    ensures r.peerId == peerId && r.init == init && r.key == key && r.optional == optional
  {
    ServerEnlist([], EncodeFields(peerId, init.packet, key, optional), [],
      peerId, init, key, optional)
  }

  function FromPacket(packet: Bytes): (r: ServerEnlist)
    ensures r.packet == packet
    ensures (r.payload, r.signature) == OpenEnvelope(packet)
  {
    var (payload, signature) := OpenEnvelope(packet);
    var id := ReadId(Open(payload));
    var init := ReadBytes(id.next);
    var key := ReadBytes(init.next);
    var optional := ReadBytes(key.next);
    ServerEnlist(packet, payload, signature, id.value,
      InitMessage.FromPacket(init.value), key.value, optional.value)
  }

  function SetSignature(enlist: ServerEnlist, signature: Bytes): (r: ServerEnlist)
    ensures r.payload == enlist.payload
    ensures r.signature == signature
    ensures OpenEnvelope(r.packet) == (enlist.payload, signature)
    ensures r.peerId == enlist.peerId && r.init == enlist.init
    ensures r.key == enlist.key && r.optional == enlist.optional
  {
    OpenEnvelopeRoundTrip(enlist.payload, signature);
    enlist.(signature := signature, packet := Envelope(enlist.payload, signature))
  }

  function Write(enlist: ServerEnlist): Bytes
  {
    EncodeBytes(enlist.packet)
  }

  function ReadFrom(r: Reader): Read<ServerEnlist>
  {
    var data := ReadBytes(r);
    Read(FromPacket(data.value), data.next)
  }

  lemma ReadEncodedFields(peerId: Id, initPacket: Bytes, key: Bytes, optional: Bytes)
    ensures var id := ReadId(Open(EncodeFields(peerId, initPacket, key, optional)));
            var i := ReadBytes(id.next);
            var k := ReadBytes(i.next);
            var o := ReadBytes(k.next);
            id.value == peerId && i.value == initPacket && k.value == key && o.value == optional
  {
    var tail3 := EncodeBytes(optional);
    var tail2 := EncodeBytes(key) + tail3;
    var tail1 := EncodeBytes(initPacket) + tail2;
    ReadNatEncoded(peerId, tail1);
    ReadBytesEncoded(initPacket, tail2);
    ReadBytesEncoded(key, tail3);
    assert tail3 == EncodeBytes(optional) + [];
    ReadBytesEncoded(optional, []);
  }

  /**
   * A signed Enlist parses back to itself, provided its embedded Init is
   * one its own packet parses back to (every signed Init is: see
   * InitMessage.RoundTrip).
   */
  lemma RoundTrip(peerId: Id, init: InitMessage.ServerInit, key: Bytes, optional: Bytes, signature: Bytes)
    requires InitMessage.FromPacket(init.packet) == init
    ensures var enlist := SetSignature(FromFields(peerId, init, key, optional), signature);
            FromPacket(enlist.packet) == enlist
  {
    var enlist := SetSignature(FromFields(peerId, init, key, optional), signature);
    OpenEnvelopeRoundTrip(enlist.payload, signature);
    ReadEncodedFields(peerId, init.packet, key, optional);
  }

  lemma StreamRoundTrip(enlist: ServerEnlist, rest: Bytes)
    requires FromPacket(enlist.packet) == enlist
    ensures ReadFrom(Open(Write(enlist) + rest)) == Read(enlist, Open(rest))
  {
    ReadBytesEncoded(enlist.packet, rest);
  }
}
