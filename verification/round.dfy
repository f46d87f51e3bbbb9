/**
 * Anonymity::Round, the part every round shares: its rosters and flags,
 * the intake filter in front of ProcessData, the signature split of
 * Verify, and HandleDisconnect.
 */
module Round {
  import opened Common
  import R = Roster

  /**
   * A round's rosters and nonce with its lifecycle flags. `started` and
   * `stopped` stand for the start/stop state the round inherits.
   */
  datatype RoundState = RoundState(
    clients: R.Roster,
    servers: R.Roster,
    nonce: Bytes,
    started: bool,
    stopped: bool,
    successful: bool,
    interrupted: bool)

  /** A new round: not started, not stopped, neither successful nor interrupted. */
  function New(clients: R.Roster, servers: R.Roster, nonce: Bytes): (r: RoundState)
    ensures r.clients == clients && r.servers == servers && r.nonce == nonce
    ensures !r.started && !r.stopped && !r.successful && !r.interrupted
  {
    RoundState(clients, servers, nonce, false, false, false, false)
  }

  /** Start: the round is marked started; what it accepts does not change. */
  function Start(r: RoundState): (x: RoundState)
    ensures x == r.(started := true)
    ensures forall req :: IncomingData(x, req) == IncomingData(r, req)
  {
    r.(started := true)
  }

  /** Stop: the round is marked stopped and from then on takes no data at all. */
  function Stop(r: RoundState): (x: RoundState)
    ensures x == r.(stopped := true)
    ensures forall req :: IncomingData(x, req) == Dropped
  {
    r.(stopped := true)
  }

  /** Who a request came from: a peer of the overlay, or some other sender. */
  datatype Sender = OverlaySender(id: Id) | OtherSender

  /**
   * The QVariant a request carries, as far as intake looks into it. A
   * string is held as the bytes QVariant's conversion to a byte array
   * gives for it.
   */
  datatype Variant =
    | VBytes(bytes: Bytes)
    | VString(converted: Bytes)
    | VHash(entries: map<string, Variant>)
    | VOther

  datatype Request = Request(from: Sender, data: Variant)

  /**
   * `toHash().value("data").toByteArray()`: the bytes under "data" when the
   * request holds a hash with a byte array or string there, and empty
   * otherwise.
   */
  function DataField(v: Variant): (b: Bytes)
    ensures b != [] ==> v.VHash? && "data" in v.entries
    ensures v.VHash? && "data" in v.entries && v.entries["data"].VBytes? ==> b == v.entries["data"].bytes
    ensures v.VHash? && "data" in v.entries && v.entries["data"].VString? ==> b == v.entries["data"].converted
  {
    match v
    case VHash(entries) =>
      if "data" in entries then
        match entries["data"]
        case VBytes(b) => b
        case VString(b) => b
        case _ => []
      else []
    case _ => []
  }

  /** What intake does with a request: drop it, or pass (sender, data) to ProcessData. */
  datatype Intake = Dropped | Forward(id: Id, data: Bytes)

  /** A member of either roster. */
  predicate Member(r: RoundState, id: Id)
  {
    R.Contains(r.servers, id) || R.Contains(r.clients, id)
  }

  /**
   * IncomingData: a stopped round takes nothing; otherwise only requests
   * from overlay peers in one of the rosters reach ProcessData, with the
   * "data" field of their payload.
   */
  function IncomingData(r: RoundState, req: Request): (x: Intake)
    ensures r.stopped ==> x == Dropped
    ensures x.Forward? <==> !r.stopped && req.from.OverlaySender? && Member(r, req.from.id)
    ensures x.Forward? ==> x.id == req.from.id && x.data == DataField(req.data)
  {
    if r.stopped then Dropped
    else match req.from
      case OtherSender => Dropped
      case OverlaySender(id) =>
        if !R.Contains(r.servers, id) && !R.Contains(r.clients, id) then Dropped
        else Forward(id, DataField(req.data))
  }

  /** Verify's answer, and the message part when the data was long enough to split. */
  datatype Verified = Verified(ok: bool, msg: Option<Bytes>)

  /**
   * Verify: the sender must have a key in the server roster, and the data
   * must hold at least a signature; the trailing signature-length bytes are
   * the signature over everything before them.
   */
  function Verify(r: RoundState, from: Id, data: Bytes,
                  signatureLength: Bytes -> nat,
                  verify: (Bytes, Bytes, Bytes) -> bool): (v: Verified)
    ensures R.GetKey(r.servers, from).None? ==> v == Verified(false, None)
    ensures R.GetKey(r.servers, from).Some? ==>
              var key := R.GetKey(r.servers, from).value;
              && (|data| < signatureLength(key) ==> v == Verified(false, None))
              && (|data| >= signatureLength(key) ==>
                    && v.msg.Some?
                    && |v.msg.value| + signatureLength(key) == |data|
                    && v.msg.value + data[|v.msg.value|..] == data
                    && v.ok == verify(key, v.msg.value, data[|v.msg.value|..]))
  {
    match R.GetKey(r.servers, from)
    case None => Verified(false, None)
    case Some(key) =>
      var size := signatureLength(key);
      if |data| < size then Verified(false, None)
      else
        var msg := data[..|data| - size];
        var sig := data[|data| - size..];
        assert msg + sig == data;
        Verified(verify(key, msg, sig), Some(msg))
  }

  /** Verify looks only at the server roster: client keys never count. */
  lemma VerifyIgnoresClients(r: RoundState, clients: R.Roster, from: Id, data: Bytes,
                             signatureLength: Bytes -> nat, verify: (Bytes, Bytes, Bytes) -> bool)
    ensures Verify(r.(clients := clients), from, data, signatureLength, verify)
         == Verify(r, from, data, signatureLength, verify)
  {
  }

  /**
   * HandleDisconnect: the loss of a roster member interrupts and stops the
   * round; any other disconnect changes nothing.
   */
  function HandleDisconnect(r: RoundState, id: Id): (x: RoundState)
    ensures Member(r, id) ==> x == r.(interrupted := true, stopped := true)
    ensures !Member(r, id) ==> x == r
    ensures x.interrupted <==> r.interrupted || Member(r, id)
    ensures Member(r, id) ==> forall req :: IncomingData(x, req) == Dropped
  {
    if R.Contains(r.servers, id) || R.Contains(r.clients, id) then
      Stop(r.(interrupted := true))
    else r
  }
}
