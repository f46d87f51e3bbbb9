/**
 * ServerStart: sent by a server to its registered clients once every
 * server has signed the client list. The packet is (register bytes,
 * signature list) with no outer signature.
 */
module StartMessage {
  import opened Common
  import opened Wire
  import opened RegisterMessage

  datatype ServerStart = ServerStart(
    packet: Bytes,
    registerList: seq<ClientRegister>,
    registerBytes: Bytes,
    signatures: seq<Bytes>)

  /**
   * The field constructor. The register bytes are the precomputed bytes
   * when some are given, and otherwise the serialised register list.
   */
  function FromFields(registerList: seq<ClientRegister>, signatures: seq<Bytes>, registerData: Bytes): (r: ServerStart)
    ensures r.registerList == registerList && r.signatures == signatures
    ensures registerData != [] ==> r.registerBytes == registerData
    ensures registerData == [] ==> r.registerBytes == SerializeList(registerList)
    ensures r.packet == EncodeBytes(r.registerBytes) + EncodeList(signatures)
  {
    var bytes := if registerData == [] then SerializeList(registerList) else registerData;
    ServerStart(EncodeBytes(bytes) + EncodeList(signatures), registerList, bytes, signatures)
  }

  /** The packet constructor: read both fields, then deserialise the list. */
  function FromPacket(packet: Bytes): (r: ServerStart)
    ensures r.packet == packet
    ensures r.registerList == DeserializeList(r.registerBytes)
  {
    var bytes := ReadBytes(Open(packet));
    var sigs := ReadList(bytes.next);
    ServerStart(packet, DeserializeList(bytes.value), bytes.value, sigs.value)
  }

  function Write(start: ServerStart): Bytes
  {
    EncodeBytes(start.packet)
  }

  function ReadFrom(r: Reader): Read<ServerStart>
  {
    var data := ReadBytes(r);
    Read(FromPacket(data.value), data.next)
  }

  /**
   * The register bytes and the signatures come back unchanged and in
   * order; the register list comes back too when it was serialised from
   * registrations that reparse.
   */
  lemma RoundTrip(registerList: seq<ClientRegister>, signatures: seq<Bytes>, registerData: Bytes)
    ensures var start := FromFields(registerList, signatures, registerData);
            var parsed := FromPacket(start.packet);
            && parsed.registerBytes == start.registerBytes
            && parsed.signatures == signatures
            && ((registerData == [] && forall i :: 0 <= i < |registerList| ==> Reparses(registerList[i]))
                ==> parsed == start)
  {
    var start := FromFields(registerList, signatures, registerData);
    var tail := EncodeList(signatures);
    ReadBytesEncoded(start.registerBytes, tail);
    assert tail == EncodeList(signatures) + [];
    ReadListEncoded(signatures, []);
    if registerData == [] && forall i :: 0 <= i < |registerList| ==> Reparses(registerList[i]) {
      ListRoundTrip(registerList);
    }
  }

  lemma StreamRoundTrip(start: ServerStart, rest: Bytes)
    requires FromPacket(start.packet) == start
    ensures ReadFrom(Open(Write(start) + rest)) == Read(start, Open(rest))
  {
    ReadBytesEncoded(start.packet, rest);
  }
}
