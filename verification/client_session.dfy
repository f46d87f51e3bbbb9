/**
 * ClientSession: a client's side of setting up a round. The client picks
 * the first server it is connected to, queues with a fresh nonce, checks
 * the Queued reply and the agreed server list it carries, registers an
 * ephemeral key, and starts the round once the Start message carries one
 * valid signature per server over the final client list.
 */
module ClientSession {
  import opened Common
  import opened Wire
  import AG = AgreeMessage
  import RG = RegisterMessage
  import ST = StartMessage
  import RD = Round
  import S = Session
  import SS = ServerSession

  /** ClientSession::States, in declaration order. */
  datatype Phase = Offline | WaitingForServer | Queuing | Registering | Communicating

  /**
   * A Queued reply as the client reads it: the nonce it echoes, the signed
   * payload and its signature, and the agreed server list. The layout of
   * ServerQueued.hpp is not part of this model.
   */
  datatype Queued = Queued(nonce: Bytes, payload: Bytes, signature: Bytes, agrees: seq<AG.ServerAgree>)

  /** The client's environment: own id, configured server ids, crypto, signing and hashing. */
  datatype Env = Env(
    self: Id,
    serverIds: seq<Id>,
    crypto: S.Crypto,
    sign: Bytes -> Bytes,
    hash: seq<Bytes> -> Bytes)

  /** Fresh values a step may draw: a random nonce, and the ephemeral key and DH component. */
  datatype Fresh = Fresh(nonce: Bytes, ephemeralKey: Bytes, optional: Bytes)

  datatype Effect =
    | Notify(to: Id, rpc: string, packet: Bytes)
    | CreateRound(replayed: seq<RD.Request>)
    | StartRound

  datatype Client = Client(
    phase: Phase,
    server: Option<Id>,
    nonce: Bytes,
    ephemeralKey: Bytes,
    optional: Bytes,
    session: S.Session)

  datatype Step = Step(client: Client, effects: seq<Effect>)

  /** A new client session: offline, with an all-zero nonce of the generator's seed size. */
  function New(session: S.Session, seedSize: nat): (c: Client)
    ensures c.phase == Offline && c.server.None? && c.nonce == Zeros(seedSize)
  {
    Client(Offline, None, Zeros(seedSize), [], [], session)
  }

  predicate IsServer(env: Env, id: Id)
  {
    id in env.serverIds
  }

  /** The first connection in connection-table order that leads to a server. */
  function FirstServer(env: Env, connections: seq<Id>): (r: Option<Id>)
    ensures r.None? <==> forall i :: 0 <= i < |connections| ==> !IsServer(env, connections[i])
    ensures r.Some? ==> exists i :: 0 <= i < |connections| && connections[i] == r.value
                          && IsServer(env, r.value)
                          && forall j :: 0 <= j < i ==> !IsServer(env, connections[j])
  {
    if |connections| == 0 then None
    else if IsServer(env, connections[0]) then Some(connections[0])
    else
      var rest := FirstServer(env, connections[1..]);
      assert forall i :: 1 <= i < |connections| ==> connections[i] == connections[1..][i - 1];
      if rest.Some? then
        var i :| 0 <= i < |connections[1..]| && connections[1..][i] == rest.value
                 && IsServer(env, rest.value)
                 && forall j :: 0 <= j < i ==> !IsServer(env, connections[1..][j]);
        assert connections[i + 1] == rest.value;
        rest
      else rest
  }

  /** SendQueue: queue at the chosen server with a fresh nonce. */
  function SendQueue(c: Client, server: Id, inputs: Fresh): (r: Step)
    ensures r.client == c.(phase := Queuing, server := Some(server), nonce := inputs.nonce)
    ensures r.effects == [Notify(server, "Queue", inputs.nonce)]
  {
    Step(c.(phase := Queuing, server := Some(server), nonce := inputs.nonce),
         [Notify(server, "Queue", inputs.nonce)])
  }

  /**
   * The server a client queues with answers, at once while registering
   * and otherwise when registration opens, with the very nonce the client
   * now waits for, so the client's nonce check passes on that answer.
   */
  lemma QueueEchoed(c: Client, env: Env, server: Id, inputs: Fresh, srv: SS.Server, senv: SS.Env)
    requires !SS.IsServer(senv, env.self)
    ensures var st := SendQueue(c, server, inputs);
            var sent := SS.Notification(RD.OverlaySender(env.self), "Queue", st.effects[0].packet);
            var reply := SS.HandleQueue(srv, senv, sent);
            && (srv.phase == SS.Registering ==> reply.effects == [SS.SendQueued(env.self, st.client.nonce, srv.agreeBytes)])
            && (srv.phase != SS.Registering ==>
                  && reply.effects == []
                  && reply.server.queued == srv.queued[env.self := st.client.nonce])
  {
  }

  /**
   * CheckServer: only while waiting for a server. The first connected
   * server becomes this client's server and the client queues there;
   * without one the client keeps waiting with no server.
   */
  function CheckServer(c: Client, env: Env, connections: seq<Id>, inputs: Fresh): (r: Step)
    ensures c.phase != WaitingForServer ==> r == Step(c, [])
    ensures c.phase == WaitingForServer && FirstServer(env, connections).None? ==>
              r == Step(c.(server := None), [])
    ensures c.phase == WaitingForServer && FirstServer(env, connections).Some? ==>
              r == SendQueue(c, FirstServer(env, connections).value, inputs)
    ensures c.phase == WaitingForServer ==> (r.client.phase == Queuing <==> FirstServer(env, connections).Some?)
  {
    if c.phase != WaitingForServer then Step(c, [])
    else match FirstServer(env, connections)
      case None => Step(c.(server := None), [])
      case Some(server) => SendQueue(c, server, inputs)
  }

  /** OnStart: wait for a server, then look at the connections. */
  function OnStart(c: Client, env: Env, connections: seq<Id>, inputs: Fresh): (r: Step)
    ensures r == CheckServer(c.(phase := WaitingForServer), env, connections, inputs)
    ensures r.client.phase in {WaitingForServer, Queuing}
  {
    CheckServer(c.(phase := WaitingForServer), env, connections, inputs)
  }

  /** HandleRoundFinished: after a round the client starts over exactly as OnStart does. */
  function HandleRoundFinished(c: Client, env: Env, connections: seq<Id>, inputs: Fresh): (r: Step)
    ensures r == OnStart(c, env, connections, inputs)
    ensures r.client.session == c.session
    ensures r.client.phase == Queuing <==> FirstServer(env, connections).Some?
    ensures r.client.phase == WaitingForServer <==> FirstServer(env, connections).None?
    ensures FirstServer(env, connections).Some? ==>
              r.effects == [Notify(FirstServer(env, connections).value, "Queue", inputs.nonce)]
    ensures FirstServer(env, connections).None? ==> r.effects == []
  {
    OnStart(c, env, connections, inputs)
  }

  /**
   * HandleConnection: as the source is written, a new connection to a
   * server is ignored and any other connection makes the client look for
   * a server.
   */
  function HandleConnection(c: Client, env: Env, remote: Id, connections: seq<Id>, inputs: Fresh): (r: Step)
    ensures IsServer(env, remote) ==> r == Step(c, [])
    ensures !IsServer(env, remote) ==> r == CheckServer(c, env, connections, inputs)
    ensures c.phase != WaitingForServer ==> r == Step(c, [])
    ensures r.client.session == c.session
    ensures r.client.phase in {c.phase, Queuing}
  {
    if IsServer(env, remote) then Step(c, []) else CheckServer(c, env, connections, inputs)
  }

  /** Every Agree of a list passes the session's CheckServerAgree. */
  predicate AllAgreesValid(session: S.Session, crypto: S.Crypto, agrees: seq<AG.ServerAgree>)
  {
    forall i :: 0 <= i < |agrees| ==> S.CheckServerAgree(session, crypto, agrees[i])
  }

  /**
   * HandleQueued: only while queuing. The reply must echo this client's
   * nonce and carry its server's signature. The agreed list is stored
   * whatever follows; it must hold one Agree per configured server, the
   * first Agree's round id becomes the session's, and every Agree must
   * pass CheckServerAgree before the client registers.
   */
  function HandleQueued(c: Client, env: Env, q: Queued, inputs: Fresh): (r: Step)
    ensures c.phase != Queuing || c.server.None? || q.nonce != c.nonce ==> r == Step(c, [])
    ensures (c.phase == Queuing && c.server.Some? && q.nonce == c.nonce
             && !env.crypto.verify(env.crypto.keyOf(c.server.value), q.payload, q.signature)) ==> r == Step(c, [])
    ensures c.phase == Queuing ==>
              (r.client.phase == Registering <==>
                 && c.server.Some? && q.nonce == c.nonce
                 && env.crypto.verify(env.crypto.keyOf(c.server.value), q.payload, q.signature)
                 && |q.agrees| == |env.serverIds| && |q.agrees| > 0
                 && AllAgreesValid(c.session.(roundId := q.agrees[0].roundId), env.crypto, q.agrees))
    ensures c.phase == Queuing && r.client.phase == Registering ==>
              && r.client.session.servers == q.agrees
              && r.client.session.roundId == q.agrees[0].roundId
              && (forall i :: 0 <= i < |q.agrees| ==> q.agrees[i].roundId == q.agrees[0].roundId)
              && r == SendRegister(c.(session := S.SetServers(c.session, q.agrees).(roundId := q.agrees[0].roundId)), env, inputs)
    ensures c.phase == Queuing && c.server.Some? && q.nonce == c.nonce
            && env.crypto.verify(env.crypto.keyOf(c.server.value), q.payload, q.signature) ==>
              r.client.session.servers == q.agrees
  {
    if c.phase != Queuing || c.server.None? || q.nonce != c.nonce then Step(c, [])
    else if !env.crypto.verify(env.crypto.keyOf(c.server.value), q.payload, q.signature) then Step(c, [])
    else
      var c1 := c.(session := S.SetServers(c.session, q.agrees));
      if |c1.session.servers| != |env.serverIds| then Step(c1, [])
      // An empty agreed list matches only an empty server list; the source then reads past its end.
      else if |q.agrees| == 0 then Step(c1, [])
      else
        var c2 := c1.(session := c1.session.(roundId := q.agrees[0].roundId));
        if !AllAgreesValid(c2.session, env.crypto, q.agrees) then Step(c2, [])
        else SendRegister(c2, env, inputs)
  }

  /** This client's signed registration: its id, the round id, and its new ephemeral key and DH component. */
  function RegisterOf(c: Client, env: Env, inputs: Fresh): (reg: RG.ClientRegister)
    ensures reg.peerId == env.self && reg.roundId == c.session.roundId
    ensures reg.key == inputs.ephemeralKey && reg.optional == inputs.optional
    ensures OpenEnvelope(reg.packet) == (reg.payload, env.sign(reg.payload))
  {
    var unsigned := RG.FromFields(env.self, c.session.roundId, inputs.ephemeralKey, inputs.optional);
    RG.SetSignature(unsigned, env.sign(unsigned.payload))
  }

  /**
   * SendRegister: registering, with new round data; the signed
   * registration goes to this client's server.
   */
  function SendRegister(c: Client, env: Env, inputs: Fresh): (r: Step)
    requires c.server.Some?
    ensures r.client == c.(phase := Registering, ephemeralKey := inputs.ephemeralKey, optional := inputs.optional)
    ensures r.effects == [Notify(c.server.value, "Register", RegisterOf(c, env, inputs).packet)]
    ensures var reg := RG.FromPacket(r.effects[0].packet);
            && reg == RegisterOf(c, env, inputs)
            && reg.peerId == env.self && reg.roundId == c.session.roundId && reg.key == r.client.ephemeralKey
  {
    var unsigned := RG.FromFields(env.self, c.session.roundId, inputs.ephemeralKey, inputs.optional);
    RG.RoundTrip(env.self, c.session.roundId, inputs.ephemeralKey, inputs.optional, env.sign(unsigned.payload));
    var c1 := c.(phase := Registering, ephemeralKey := inputs.ephemeralKey, optional := inputs.optional);
    Step(c1, [Notify(c.server.value, "Register", RegisterOf(c, env, inputs).packet)])
  }

  /** Each configured server, in list order, signed the hash with the signature at the same position. */
  predicate AllSigned(env: Env, hashed: Bytes, signatures: seq<Bytes>)
    requires |signatures| == |env.serverIds|
  {
    forall i :: 0 <= i < |env.serverIds| ==>
      env.crypto.verify(env.crypto.keyOf(env.serverIds[i]), hashed, signatures[i])
  }

  /**
   * HandleStart: only while registering. There must be one signature per
   * configured server, and the i-th server's signature must verify over
   * the hash of the register bytes. The round then starts with the
   * carried client list. The phase is left at registering.
   */
  function HandleStart(c: Client, env: Env, packet: Bytes, serial: nat): (r: Step)
    ensures var start := ST.FromPacket(packet);
            var accepted := && c.phase == Registering
                            && |start.signatures| == |env.serverIds|
                            && AllSigned(env, env.hash([start.registerBytes]), start.signatures);
            && (!accepted ==> r == Step(c, []))
            && (accepted ==>
                  && r.client.phase == c.phase
                  && r.client.session == S.NextRound(c.session.(clients := start.registerList), serial).0
                  && r.effects == [CreateRound(S.NextRound(c.session.(clients := start.registerList), serial).1), StartRound])
  {
    if c.phase != Registering then Step(c, [])
    else
      var start := ST.FromPacket(packet);
      if |start.signatures| != |env.serverIds| then Step(c, [])
      else if !AllSigned(env, env.hash([start.registerBytes]), start.signatures) then Step(c, [])
      else
        var (session, replayed) := S.NextRound(c.session.(clients := start.registerList), serial);
        Step(c.(session := session), [CreateRound(replayed), StartRound])
  }

  /**
   * Since the phase stays at registering, a second delivery of an accepted
   * Start is accepted again and builds another round.
   */
  lemma RepeatedStartRestarts(c: Client, env: Env, packet: Bytes, serial: nat, serial2: nat)
    requires HandleStart(c, env, packet, serial).effects != []
    ensures var once := HandleStart(c, env, packet, serial).client;
            HandleStart(once, env, packet, serial2).effects != []
  {
  }

  /**
   * A Start built by a server whose Verifying step completed is accepted
   * by a registering client with the same configuration, and the client
   * adopts exactly the server's client list, provided the configured
   * server ids are listed in ascending order, the order in which the
   * server lays out the signatures.
   */
  lemma ServerStartAccepted(srv: SS.Server, senv: SS.Env, c: Client, env: Env, serial: nat)
    requires env.serverIds == senv.serverIds && env.crypto == senv.crypto && env.hash == senv.hash
    requires StrictlyAscending(env.serverIds)
    requires srv.verified.Keys == Elems(env.serverIds)
    requires forall k :: k in srv.verified ==> SS.Verifies(senv, k, srv.registeredHash, srv.verified[k])
    requires srv.registeredHash == senv.hash([RG.SerializeList(srv.session.clients)])
    requires forall i :: 0 <= i < |srv.session.clients| ==> RG.Reparses(srv.session.clients[i])
    requires c.phase == Registering
    ensures var r := HandleStart(c, env, SS.StartOf(srv).packet, serial);
            && r.effects != []
            && r.client.session.clients == srv.session.clients
  {
    ST.RoundTrip(srv.session.clients, ValuesByKey(srv.verified), []);
    assert ST.FromPacket(SS.StartOf(srv).packet) == SS.StartOf(srv);
    SignaturesInServerOrder(srv.verified, srv.registeredHash, env);
  }

  /** The signatures a Start lays out by ascending server id are the configured servers' in list order. */
  lemma SignaturesInServerOrder(verified: map<Id, Bytes>, hashed: Bytes, env: Env)
    requires StrictlyAscending(env.serverIds)
    requires verified.Keys == Elems(env.serverIds)
    requires forall k :: k in verified ==> env.crypto.verify(env.crypto.keyOf(k), hashed, verified[k])
    ensures |ValuesByKey(verified)| == |env.serverIds|
    ensures AllSigned(env, hashed, ValuesByKey(verified))
  {
    var sigs := ValuesByKey(verified);
    var keys := SortedKeys(verified);
    SortedKeysOrder(verified);
    AscendingUnique(keys, env.serverIds);
    assert |sigs| == |env.serverIds|;
    forall i | 0 <= i < |env.serverIds|
      ensures env.crypto.verify(env.crypto.keyOf(env.serverIds[i]), hashed, sigs[i])
    {
      assert sigs[i] == verified[keys[i]];
    }
  }

  /**
   * A Queued reply that echoes the nonce, is signed by the client's server
   * and lists one Agree per server, all with the same round id and each
   * signed, with a valid ephemeral key, makes the client register under
   * that round id.
   */
  lemma ConsistentQueuedRegisters(c: Client, env: Env, q: Queued, inputs: Fresh)
    requires c.phase == Queuing && c.server.Some? && q.nonce == c.nonce
    requires env.crypto.verify(env.crypto.keyOf(c.server.value), q.payload, q.signature)
    requires |q.agrees| == |env.serverIds| > 0
    requires forall i :: 0 <= i < |q.agrees| ==>
               && q.agrees[i].roundId == q.agrees[0].roundId
               && env.crypto.verify(env.crypto.keyOf(q.agrees[i].peerId), q.agrees[i].payload, q.agrees[i].signature)
               && env.crypto.keyValid(q.agrees[i].key)
    ensures var r := HandleQueued(c, env, q, inputs);
            && r.client.phase == Registering
            && r.client.session.roundId == q.agrees[0].roundId
            && RegisterOf(r.client, env, inputs).roundId == q.agrees[0].roundId
  {
  }
}
