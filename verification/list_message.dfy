/**
 * ServerList: a server's signed list of the clients that registered with
 * it. The payload is the serialised register list.
 */
module ListMessage {
  import opened Common
  import opened Wire
  import opened RegisterMessage

  /** `register` holds the list bytes the list constructors were given or computed. */
  datatype ServerList = ServerList(
    packet: Bytes,
    payload: Bytes,
    signature: Bytes,
    registerList: seq<ClientRegister>,
    register: Bytes)

  /** The list constructor: the payload is the serialised list. */
  function FromList(registerList: seq<ClientRegister>): (r: ServerList)
    ensures r.payload == SerializeList(registerList) && r.register == r.payload
    ensures r.registerList == registerList && r.packet == [] && r.signature == []
  {
    var bytes := SerializeList(registerList);
    ServerList([], bytes, [], registerList, bytes)
  }

  /** The list-and-bytes constructor: the payload is the given bytes. */
  function FromListAndBytes(registerList: seq<ClientRegister>, listData: Bytes): (r: ServerList)
    ensures r.payload == listData && r.register == listData
    ensures r.registerList == registerList && r.packet == [] && r.signature == []
  {
    ServerList([], listData, [], registerList, listData)
  }

  /**
   * The packet constructor: open the envelope and deserialise the list
   * from the payload. The list-bytes member is left default-constructed.
   */
  function FromPacket(packet: Bytes): (r: ServerList)
    ensures r.packet == packet
    ensures (r.payload, r.signature) == OpenEnvelope(packet)
    ensures r.registerList == DeserializeList(r.payload)
    ensures r.register == []
  {
    var (payload, signature) := OpenEnvelope(packet);
    ServerList(packet, payload, signature, DeserializeList(payload), [])
  }

  function SetSignature(list: ServerList, signature: Bytes): (r: ServerList)
    ensures r.payload == list.payload && r.signature == signature
    ensures OpenEnvelope(r.packet) == (list.payload, signature)
    ensures r.registerList == list.registerList && r.register == list.register
  {
    OpenEnvelopeRoundTrip(list.payload, signature);
    list.(signature := signature, packet := Envelope(list.payload, signature))
  }

  function Write(list: ServerList): Bytes
  {
    EncodeBytes(list.packet)
  }

  function ReadFrom(r: Reader): Read<ServerList>
  {
    var data := ReadBytes(r);
    Read(FromPacket(data.value), data.next)
  }

  /**
   * A signed list's packet gives back its payload and signature, and the
   * register list too when the registrations reparse.
   */
  lemma RoundTrip(registerList: seq<ClientRegister>, signature: Bytes)
    ensures var list := SetSignature(FromList(registerList), signature);
            var parsed := FromPacket(list.packet);
            && parsed.payload == list.payload
            && parsed.signature == signature
            && ((forall i :: 0 <= i < |registerList| ==> Reparses(registerList[i]))
                ==> parsed.registerList == registerList)
  {
    var list := SetSignature(FromList(registerList), signature);
    OpenEnvelopeRoundTrip(list.payload, signature);
    if forall i :: 0 <= i < |registerList| ==> Reparses(registerList[i]) {
      ListRoundTrip(registerList);
    }
  }

  /** `>>` after `<<` rebuilds the list from the same packet. */
  lemma StreamRoundTrip(list: ServerList, rest: Bytes)
    ensures ReadFrom(Open(Write(list) + rest)) == Read(FromPacket(list.packet), Open(rest))
  {
    ReadBytesEncoded(list.packet, rest);
  }
}
