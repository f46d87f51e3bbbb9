/**
 * Session and SessionSharedState: the state shared by a participant's
 * successive rounds, namely the agreed server list and registered clients,
 * the round id, the send queue, and the requests that arrive before a round
 * has started. A new round is built from that state, and a finished round
 * hands its data back.
 */
module Session {
  import opened Common
  import R = Roster
  import RD = Round
  import DQ = DataQueue
  import AG = AgreeMessage
  import RG = RegisterMessage

  /**
   * The crypto the session consults: a signature check, the validity test
   * of an ephemeral key, and the long-term key the key share holds for
   * each peer.
   */
  datatype Crypto = Crypto(
    verify: (Bytes, Bytes, Bytes) -> bool,
    keyValid: Bytes -> bool,
    keyOf: Id -> Bytes)

  /** The current round and the serial number that tells it from earlier ones. */
  datatype LiveRound = LiveRound(serial: nat, state: RD.RoundState)

  datatype Session = Session(
    roundId: Bytes,
    servers: seq<AG.ServerAgree>,
    serverBytes: Bytes,
    clients: seq<RG.ClientRegister>,
    sendQueue: DQ.DataQueue,
    round: Option<LiveRound>,
    roundQueue: seq<RD.Request>,
    stopped: bool)

  /**
   * Send: the data joins the end of the send queue, so it is offered after
   * everything not yet consumed; nothing else changes.
   */
  function Send(s: Session, data: Bytes): (r: Session)
    ensures r == s.(sendQueue := DQ.AddData(s.sendQueue, data))
    ensures r.(sendQueue := s.sendQueue) == s
    ensures 0 <= s.sendQueue.trim <= |s.sendQueue.queue| ==>
              DQ.Start(r.sendQueue) == DQ.Start(s.sendQueue) + [data]
  {
    if 0 <= s.sendQueue.trim <= |s.sendQueue.queue| then
      DQ.AddDataKeepsOrder(s.sendQueue, data);
      s.(sendQueue := DQ.AddData(s.sendQueue, data))
    else s.(sendQueue := DQ.AddData(s.sendQueue, data))
  }

  /** SetServers: the agreed list and its serialisation, stored together. */
  function SetServers(s: Session, servers: seq<AG.ServerAgree>): (r: Session)
    ensures r.servers == servers && r.serverBytes == AG.SerializeList(servers)
    ensures r == s.(servers := servers, serverBytes := r.serverBytes)
  {
    s.(servers := servers, serverBytes := AG.SerializeList(servers))
  }

  /** The stored bytes give back the stored list when its messages reparse. */
  lemma ServerBytesMatchList(s: Session, servers: seq<AG.ServerAgree>)
    requires forall i :: 0 <= i < |servers| ==> AG.Reparses(servers[i])
    ensures AG.DeserializeList(SetServers(s, servers).serverBytes) == servers
  {
    AG.ListRoundTrip(servers);
  }

  /** Where a request goes: straight to the started round, or into the buffer. */
  datatype Routed = Delivered(req: RD.Request) | Buffered

  /** IncomingData: a request reaches the round only once it has started. */
  function IncomingData(s: Session, req: RD.Request): (r: (Session, Routed))
    ensures s.round.Some? && s.round.value.state.started ==> r == (s, Delivered(req))
    ensures !(s.round.Some? && s.round.value.state.started) ==>
              r == (s.(roundQueue := s.roundQueue + [req]), Buffered)
  {
    if s.round.Some? && s.round.value.state.started then (s, Delivered(req))
    else (s.(roundQueue := s.roundQueue + [req]), Buffered)
  }

  /** The roster entry a server's Agree stands for. */
  function ServerIdentity(a: AG.ServerAgree): R.PublicIdentity
  {
    R.PublicIdentity(a.peerId, a.key, a.optional)
  }

  /** The roster entry a client's Register stands for. */
  function ClientIdentity(c: RG.ClientRegister): R.PublicIdentity
  {
    R.PublicIdentity(c.peerId, c.key, c.optional)
  }

  /** A roster in the order of the agreed server list. */
  function ServerRoster(servers: seq<AG.ServerAgree>): (r: R.Roster)
    ensures |r.members| == |servers|
    ensures forall i :: 0 <= i < |servers| ==> r.members[i] == ServerIdentity(servers[i])
  {
    R.Roster(seq(|servers|, i requires 0 <= i < |servers| => ServerIdentity(servers[i])))
  }

  /** A roster in the order of the registered client list. */
  function ClientRoster(clients: seq<RG.ClientRegister>): (r: R.Roster)
    ensures |r.members| == |clients|
    ensures forall i :: 0 <= i < |clients| ==> r.members[i] == ClientIdentity(clients[i])
  {
    R.Roster(seq(|clients|, i requires 0 <= i < |clients| => ClientIdentity(clients[i])))
  }

  /**
   * NextRound: a new round over the server and client rosters, in list
   * order, with the round id as its nonce; the requests buffered so far are
   * handed to it in arrival order and the buffer is emptied.
   */
  function NextRound(s: Session, serial: nat): (r: (Session, seq<RD.Request>))
    ensures r.0.round == Some(LiveRound(serial, RD.New(ClientRoster(s.clients), ServerRoster(s.servers), s.roundId)))
    ensures r.0.roundQueue == [] && r.1 == s.roundQueue
    ensures r.0 == s.(round := r.0.round, roundQueue := [])
    ensures !r.0.round.value.state.started && !r.0.round.value.state.stopped
    ensures forall id :: RD.Member(r.0.round.value.state, id) <==> AgreedOrRegistered(s, id)
  {
    var round := RD.New(ClientRoster(s.clients), ServerRoster(s.servers), s.roundId);
    forall id ensures RD.Member(round, id) <==> AgreedOrRegistered(s, id) {
      if AgreedOrRegistered(s, id) {
        if i :| 0 <= i < |s.servers| && s.servers[i].peerId == id {
          assert round.servers.members[i].id == id;
        } else {
          var j :| 0 <= j < |s.clients| && s.clients[j].peerId == id;
          assert round.clients.members[j].id == id;
        }
      }
    }
    (s.(round := Some(LiveRound(serial, round)), roundQueue := []), s.roundQueue)
  }

  /** The peer is in the agreed server list or in the registered client list. */
  predicate AgreedOrRegistered(s: Session, id: Id)
  {
    || (exists i :: 0 <= i < |s.servers| && s.servers[i].peerId == id)
    || (exists j :: 0 <= j < |s.clients| && s.clients[j].peerId == id)
  }

  /** Requests arriving one after another. */
  function Feed(s: Session, reqs: seq<RD.Request>): (r: (Session, seq<Routed>))
    ensures |r.1| == |reqs|
    decreases |reqs|
  {
    if |reqs| == 0 then (s, [])
    else
      var (s', routed) := IncomingData(s, reqs[0]);
      var (last, others) := Feed(s', reqs[1..]);
      (last, [routed] + others)
  }

  /**
   * Requests that arrive while no started round exists are all buffered,
   * and the next round receives exactly them, in arrival order, after
   * anything buffered before.
   */
  lemma {:induction false} BufferedThenReplayed(s: Session, reqs: seq<RD.Request>, serial: nat)
    requires !(s.round.Some? && s.round.value.state.started)
    ensures var (fed, routed) := Feed(s, reqs);
            && (forall i :: 0 <= i < |routed| ==> routed[i] == Buffered)
            && NextRound(fed, serial).1 == s.roundQueue + reqs
            && NextRound(fed, serial).0.roundQueue == []
    decreases |reqs|
  {
    if |reqs| == 0 {
      assert s.roundQueue + reqs == s.roundQueue;
    } else {
      var (s', _) := IncomingData(s, reqs[0]);
      BufferedThenReplayed(s', reqs[1..], serial);
      assert s.roundQueue + reqs == (s.roundQueue + [reqs[0]]) + reqs[1..];
    }
  }

  /** What a round-finished notification led to. */
  datatype Finish = Finish(announced: bool, continued: bool)

  /**
   * HandleRoundFinishedSlot: a notification from a round other than the
   * current one is ignored. Otherwise a failed round's data goes back to
   * the send queue, the finish is announced, and unless the session is
   * stopped the subclass's HandleRoundFinished runs.
   */
  function HandleRoundFinishedSlot(s: Session, serial: nat): (r: (Session, Finish))
    ensures s.round.None? || s.round.value.serial != serial ==> r == (s, Finish(false, false))
    ensures s.round.Some? && s.round.value.serial == serial ==>
              && r.0 == s.(sendQueue := RoundFinished(s.sendQueue, s.round.value.state.successful))
              && r.1 == Finish(true, !s.stopped)
    ensures r.0.(sendQueue := s.sendQueue) == s && r.0.sendQueue.queue == s.sendQueue.queue
    ensures r.1.announced <==> s.round.Some? && s.round.value.serial == serial
    ensures r.1.continued <==> r.1.announced && !s.stopped
    ensures r.1.announced && !s.round.value.state.successful ==> DQ.Start(r.0.sendQueue) == s.sendQueue.queue
  {
    match s.round
    case None => (s, Finish(false, false))
    case Some(live) =>
      if live.serial != serial then (s, Finish(false, false))
      else
        var s' := s.(sendQueue := RoundFinished(s.sendQueue, live.state.successful));
        (s', Finish(true, !s.stopped))
  }

  /** SessionSharedState::RoundFinished: the queue is rewound exactly when the round failed. */
  function RoundFinished(q: DQ.DataQueue, successful: bool): (r: DQ.DataQueue)
    ensures successful ==> r == q
    ensures !successful ==> r == DQ.UnGet(q)
    ensures r.queue == q.queue
    ensures !successful ==> DQ.Start(r) == q.queue
  {
    if !successful then DQ.UnGet(q) else q
  }

  /**
   * After a failed round the next GetData offers what the failed round
   * took; after a successful one the data it took is trimmed away.
   */
  lemma FailedRoundReoffers(q: DQ.DataQueue, max: int)
    ensures var (b1, q1) := DQ.GetData(q, max);
            DQ.GetData(RoundFinished(q1, false), max).0 == b1
  {
    DQ.UnGetReoffers(q, max);
  }

  /**
   * Session::CheckServerAgree: the Agree's signature must verify under the
   * sender's long-term key, its ephemeral key must be valid, and its round
   * id must be the session's.
   */
  function CheckServerAgree(s: Session, crypto: Crypto, agree: AG.ServerAgree): (ok: bool)
    ensures ok <==>
              && crypto.verify(crypto.keyOf(agree.peerId), agree.payload, agree.signature)
              && crypto.keyValid(agree.key)
              && agree.roundId == s.roundId
  {
    if !crypto.verify(crypto.keyOf(agree.peerId), agree.payload, agree.signature) then false
    else if !crypto.keyValid(agree.key) then false
    else agree.roundId == s.roundId
  }

  /** The errors SessionSharedState::CheckServerAgree raises. */
  datatype AgreeError = RoundIdMismatch | InvalidSignature | InvalidEphemeralKey

  /**
   * SessionSharedState::CheckServerAgree: the round id is compared first,
   * then the signature, then the ephemeral key; it returns normally only
   * when all three pass.
   */
  function CheckServerAgreeOrThrow(s: Session, crypto: Crypto, agree: AG.ServerAgree): (r: Option<AgreeError>)
    ensures agree.roundId != s.roundId ==> r == Some(RoundIdMismatch)
    ensures var signed := crypto.verify(crypto.keyOf(agree.peerId), agree.payload, agree.signature);
            && (agree.roundId == s.roundId && !signed ==> r == Some(InvalidSignature))
            && (agree.roundId == s.roundId && signed && !crypto.keyValid(agree.key) ==> r == Some(InvalidEphemeralKey))
            && (r.None? <==> agree.roundId == s.roundId && signed && crypto.keyValid(agree.key))
  {
    if agree.roundId != s.roundId then Some(RoundIdMismatch)
    else if !crypto.verify(crypto.keyOf(agree.peerId), agree.payload, agree.signature) then Some(InvalidSignature)
    else if !crypto.keyValid(agree.key) then Some(InvalidEphemeralKey)
    else None
  }

  /** The two variants accept the same Agree messages; only the order of their checks differs. */
  lemma CheckVariantsAgree(s: Session, crypto: Crypto, agree: AG.ServerAgree)
    ensures CheckServerAgree(s, crypto, agree) <==> CheckServerAgreeOrThrow(s, crypto, agree).None?
  {
  }
}
