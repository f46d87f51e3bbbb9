/**
 * ServerSession: a server's side of setting up a round. The proposer's
 * Init starts it; every server enlists with an ephemeral key, agrees on a
 * round id hashed from all Enlists, takes client registrations until the
 * register timer fires, exchanges and verifies the client lists, and
 * starts the round. Each step waits for exactly one message per server.
 *
 * Every handler is a function from the server's state and an event to the
 * new state and the effects it caused: notifications sent, timer changes,
 * and the calls into the session's state machine and round.
 */
module ServerSession {
  import opened Common
  import opened Wire
  import IM = InitMessage
  import EM = EnlistMessage
  import AG = AgreeMessage
  import RG = RegisterMessage
  import LM = ListMessage
  import ST = StartMessage
  import RD = Round
  import S = Session

  /** ServerSession::States, in declaration order. */
  datatype Phase =
    | Offline
    | WaitingForServersAndInit
    | WaitingForServers
    | WaitingForInit
    | Enlisting
    | Agreeing
    | Registering
    | Rostering
    | Verifying
    | Communicating

  /** A notification as the RPC handler delivers it: sender, method name and packet. */
  datatype Notification = Notification(from: RD.Sender, rpc: string, data: Bytes)

  /**
   * What the server's environment supplies: its own id, the configured
   * server ids in overlay order, the crypto, its own signing function and
   * the hash (fed a sequence of updates).
   */
  datatype Env = Env(
    self: Id,
    serverIds: seq<Id>,
    crypto: S.Crypto,
    sign: Bytes -> Bytes,
    hash: seq<Bytes> -> Bytes)

  /** The fresh inputs a step may need: the clock and a new ephemeral key and DH component. */
  datatype Fresh = Fresh(now: int64, ephemeralKey: Bytes, optional: Bytes)

  /** What a step did outside the server's own state. */
  datatype Effect =
    | Notify(to: Id, rpc: string, packet: Bytes)
    | SendQueued(to: Id, nonce: Bytes, agreeBytes: Bytes)
    | StopRegisterTimer
    | StartRegisterTimer(delay: int)
    | CompleteState
    | CreateRound(replayed: seq<RD.Request>)
    | StartRound

  datatype Server = Server(
    phase: Phase,
    connectedServers: nat,
    queue: seq<Notification>,
    init: Option<IM.ServerInit>,
    enlists: map<Id, EM.ServerEnlist>,
    agrees: map<Id, AG.ServerAgree>,
    agreeBytes: Bytes,
    queued: map<Id, Bytes>,
    registered: map<Id, RG.ClientRegister>,
    registeredHash: Bytes,
    listReceived: set<Id>,
    verified: map<Id, Bytes>,
    ephemeralKey: Bytes,
    optional: Bytes,
    session: S.Session)

  datatype Step = Step(server: Server, effects: seq<Effect>)

  /** How long the server waits for client registrations, in milliseconds. */
  const RoundTimer: int := 30 * 1000

  /** A new server session: offline, with nothing collected. */
  function New(session: S.Session): (s: Server)
    ensures s.phase == Offline && s.init.None? && s.queue == []
    ensures s.enlists == map[] && s.agrees == map[] && s.registered == map[]
    ensures s.listReceived == {} && s.verified == map[] && s.queued == map[]
  {
    Server(Offline, 0, [], None, map[], map[], [], map[], map[], [], {}, map[], [], [], session)
  }

  predicate IsServer(env: Env, id: Id)
  {
    id in env.serverIds
  }

  /** IsProposer: this server is the first configured server. */
  predicate IsProposer(env: Env)
    requires |env.serverIds| > 0
  {
    env.self == env.serverIds[0]
  }

  /** The same notification to every configured server, in list order. */
  function Broadcast(env: Env, rpc: string, packet: Bytes): (r: seq<Effect>)
    ensures |r| == |env.serverIds|
    ensures forall i :: 0 <= i < |r| ==> r[i] == Notify(env.serverIds[i], rpc, packet)
    ensures ToServers(env, r)
  {
    seq(|env.serverIds|, i requires 0 <= i < |env.serverIds| => Notify(env.serverIds[i], rpc, packet))
  }

  /** Signature check under a peer's long-term key. */
  predicate Verifies(env: Env, id: Id, payload: Bytes, signature: Bytes)
  {
    env.crypto.verify(env.crypto.keyOf(id), payload, signature)
  }

  /** Every effect is a notification to a configured server. */
  predicate ToServers(env: Env, effects: seq<Effect>)
  {
    forall i :: 0 <= i < |effects| ==> effects[i].Notify? && IsServer(env, effects[i].to)
  }

  /**
   * A step of the Init and Enlist stages: the Agrees, the client
   * registrations, the lists and signatures of later stages, and the
   * shared session are as they were.
   */
  predicate LaterStagesKept(s: Server, r: Server)
  {
    && r.agrees == s.agrees && r.agreeBytes == s.agreeBytes && r.queued == s.queued
    && r.registered == s.registered && r.registeredHash == s.registeredHash
    && r.listReceived == s.listReceived && r.verified == s.verified
    && r.session == s.session
  }

  /** A step of the Agree stage: the client registrations, lists and signatures are as they were. */
  predicate RosterKept(s: Server, r: Server)
  {
    && r.registered == s.registered && r.registeredHash == s.registeredHash
    && r.listReceived == s.listReceived && r.verified == s.verified
    && r.session.clients == s.session.clients
  }

  // ---------------------------------------------------------------------
  // Start, connections and Init
  // ---------------------------------------------------------------------

  /** The connections to configured servers, counted over the connection table. */
  function ServerCount(env: Env, connections: seq<Id>): (r: nat)
    ensures r <= |connections|
    ensures r == |connections| <==> forall i :: 0 <= i < |connections| ==> IsServer(env, connections[i])
  {
    if |connections| == 0 then 0
    else
      assert forall i :: 1 <= i < |connections| ==> connections[i] == connections[1..][i - 1];
      (if IsServer(env, connections[0]) then 1 else 0) + ServerCount(env, connections[1..])
  }

  /** OnStart: wait for the servers and the Init, then look at the connections. */
  function OnStart(s: Server, env: Env, connections: seq<Id>, inputs: Fresh): (r: Step)
    requires |env.serverIds| > 0
    ensures r == CheckServers(s.(phase := WaitingForServersAndInit), env, connections, inputs)
    ensures r.server.phase in {WaitingForServersAndInit, WaitingForInit}
  {
    CheckServers(s.(phase := WaitingForServersAndInit), env, connections, inputs)
  }

  /** HandleConnection: only a new connection to a server makes the session look again. */
  function HandleConnection(s: Server, env: Env, remote: Id, connections: seq<Id>, inputs: Fresh): (r: Step)
    requires |env.serverIds| > 0
    requires s.phase == WaitingForServers ==> s.init.Some?
    ensures !IsServer(env, remote) ==> r == Step(s, [])
    ensures IsServer(env, remote) ==> r == CheckServers(s, env, connections, inputs)
    ensures LaterStagesKept(s, r.server) && r.server.queue == s.queue
    ensures r.server.phase in {s.phase, WaitingForInit, Enlisting}
    ensures ToServers(env, r.effects)
    ensures r.effects != [] ==> IsServer(env, remote) && ServerCount(env, connections) == |env.serverIds|
  {
    if !IsServer(env, remote) then Step(s, []) else CheckServers(s, env, connections, inputs)
  }

  /**
   * CheckServers: nothing moves until as many servers are connected as
   * are configured. Then a session waiting for servers and Init waits for
   * the Init alone, the proposer sending it; a session that already has
   * its Init enlists.
   */
  function CheckServers(s: Server, env: Env, connections: seq<Id>, inputs: Fresh): (r: Step)
    requires |env.serverIds| > 0
    requires s.phase == WaitingForServers ==> s.init.Some?
    ensures var connected := ServerCount(env, connections);
            && r.server.connectedServers == connected
            && (connected != |env.serverIds| ==> r == Step(s.(connectedServers := connected), []))
            && (connected == |env.serverIds| && s.phase == WaitingForServersAndInit ==>
                  && r.server == s.(connectedServers := connected, phase := WaitingForInit)
                  && (IsProposer(env) ==> r.effects == Broadcast(env, "Init", InitPacket(env, inputs.now)))
                  && (!IsProposer(env) ==> r.effects == []))
            && (connected == |env.serverIds| && s.phase == WaitingForServers ==>
                  r == SendEnlist(s.(connectedServers := connected), env, s.init.value, inputs))
            && (connected == |env.serverIds| && s.phase !in {WaitingForServersAndInit, WaitingForServers} ==>
                  r == Step(s.(connectedServers := connected), []))
    ensures LaterStagesKept(s, r.server) && r.server.queue == s.queue
    ensures r.server.phase in {s.phase, WaitingForInit, Enlisting}
    ensures ToServers(env, r.effects)
    ensures r.effects != [] ==> ServerCount(env, connections) == |env.serverIds|
  {
    var connected := ServerCount(env, connections);
    var s1 := s.(connectedServers := connected);
    if connected != |env.serverIds| then Step(s1, [])
    else if s.phase == WaitingForServersAndInit then
      var s2 := s1.(phase := WaitingForInit);
      if IsProposer(env) then Step(s2, SendInit(env, inputs.now)) else Step(s2, [])
    else if s.phase == WaitingForServers then SendEnlist(s1, env, s.init.value, inputs)
    else Step(s1, [])
  }

  /** The proposer's Init: 16 zero bytes of nonce and of group id, the current time, signed. */
  function InitMessageOf(env: Env, now: int64): (init: IM.ServerInit)
    ensures init.peerId == env.self && init.nonce == Zeros(16) && init.groupId == Zeros(16)
    ensures init.timestamp == now
    ensures OpenEnvelope(init.packet) == (init.payload, env.sign(init.payload))
  {
    var unsigned := IM.FromFields(env.self, Zeros(16), now, Zeros(16));
    IM.SetSignature(unsigned, env.sign(unsigned.payload))
  }

  function InitPacket(env: Env, now: int64): Bytes
  {
    InitMessageOf(env, now).packet
  }

  /** SendInit: the signed Init goes to every server, this one included. */
  function SendInit(env: Env, now: int64): (r: seq<Effect>)
    ensures r == Broadcast(env, "Init", InitPacket(env, now))
    ensures ToServers(env, r) && |r| == |env.serverIds|
    ensures forall i :: 0 <= i < |r| ==>
              var init := IM.FromPacket(r[i].packet);
              && r[i].to == env.serverIds[i] && r[i].rpc == "Init"
              && init.peerId == env.self && init.timestamp == now && init.nonce == Zeros(16)
  {
    InitPacketParses(env, now);
    Broadcast(env, "Init", InitPacket(env, now))
  }

  /** Every server reading the proposer's Init packet sees the proposer's fields. */
  lemma InitPacketParses(env: Env, now: int64)
    ensures var init := IM.FromPacket(InitPacket(env, now));
            && init.peerId == env.self && init.timestamp == now && init.nonce == Zeros(16)
            && init.signature == env.sign(IM.FromFields(env.self, Zeros(16), now, Zeros(16)).payload)
  {
    var unsigned := IM.FromFields(env.self, Zeros(16), now, Zeros(16));
    IM.RoundTrip(env.self, Zeros(16), now, Zeros(16), env.sign(unsigned.payload));
  }

  /**
   * HandleInit: queued while offline; otherwise only an Init from the
   * proposer, as an overlay peer, goes on to ProcessInit.
   */
  function HandleInit(s: Server, env: Env, n: Notification, inputs: Fresh): (r: Step)
    requires |env.serverIds| > 0
    ensures s.phase == Offline ==> r == Step(s.(queue := s.queue + [n]), [])
    ensures s.phase != Offline && !(n.from.OverlaySender? && n.from.id == env.serverIds[0]) ==>
              r == Step(s, [])
    ensures s.phase != Offline && n.from.OverlaySender? && n.from.id == env.serverIds[0] ==>
              var p := ProcessInit(s, env, IM.FromPacket(n.data), inputs);
              r == Step(p.server, p.effects)
    ensures s.phase != Offline && r != Step(s, []) ==> n.from == RD.OverlaySender(env.serverIds[0])
    ensures LaterStagesKept(s, r.server)
    ensures r.server.phase in {s.phase, WaitingForServers, Enlisting}
    ensures ToServers(env, r.effects)
  {
    if s.phase == Offline then Step(s.(queue := s.queue + [n]), [])
    else
      var init := IM.FromPacket(n.data);
      match n.from
      case OtherSender => Step(s, [])
      case OverlaySender(id) =>
        if env.serverIds[0] != id then Step(s, [])
        else
          var p := ProcessInit(s, env, init, inputs);
          Step(p.server, p.effects)
  }

  datatype InitResult = InitResult(accepted: bool, server: Server, effects: seq<Effect>)

  /**
   * ProcessInit: the Init already held is accepted again with no change.
   * Otherwise the proposer's signature must verify and the Init must be
   * strictly newer than the one held; a new Init is stored and moves a
   * session waiting for servers and Init to waiting for servers, and a
   * session waiting for the Init to enlisting.
   */
  function ProcessInit(s: Server, env: Env, init: IM.ServerInit, inputs: Fresh): (r: InitResult)
    requires |env.serverIds| > 0
    ensures s.init.Some? && s.init.value.packet == init.packet ==> r == InitResult(true, s, [])
    ensures !(s.init.Some? && s.init.value.packet == init.packet) ==>
              && (!Verifies(env, env.serverIds[0], init.payload, init.signature) ==> r == InitResult(false, s, []))
              && (s.init.Some? && s.init.value.timestamp >= init.timestamp ==> r == InitResult(false, s, []))
              && (r.accepted <==>
                    Verifies(env, env.serverIds[0], init.payload, init.signature)
                    && !(s.init.Some? && s.init.value.timestamp >= init.timestamp))
    ensures r.accepted ==> r.server.init.Some? && r.server.init.value.packet == init.packet
    ensures r.accepted && !(s.init.Some? && s.init.value.packet == init.packet) ==>
              && r.server.init == Some(init)
              && (s.phase == WaitingForServersAndInit ==> r.server == s.(init := Some(init), phase := WaitingForServers))
              && (s.phase == WaitingForInit ==> r.server.phase == Enlisting)
              && (s.phase !in {WaitingForServersAndInit, WaitingForInit} ==> r.server == s.(init := Some(init)))
    ensures LaterStagesKept(s, r.server) && r.server.queue == s.queue
    ensures r.server.phase in {s.phase, WaitingForServers, Enlisting}
    ensures ToServers(env, r.effects)
  {
    if s.init.Some? && s.init.value.packet == init.packet then InitResult(true, s, [])
    else if !Verifies(env, env.serverIds[0], init.payload, init.signature) then InitResult(false, s, [])
    else if s.init.Some? && s.init.value.timestamp >= init.timestamp then InitResult(false, s, [])
    else
      var s1 := s.(init := Some(init));
      if s.phase == WaitingForServersAndInit then InitResult(true, s1.(phase := WaitingForServers), [])
      else if s.phase == WaitingForInit then
        var e := SendEnlist(s1, env, init, inputs);
        InitResult(true, e.server, e.effects)
      else InitResult(true, s1, [])
  }

  /** Delivering an accepted Init a second time is accepted and changes nothing. */
  lemma ProcessInitIdempotent(s: Server, env: Env, init: IM.ServerInit, inputs: Fresh, inputs2: Fresh)
    requires |env.serverIds| > 0
    ensures var first := ProcessInit(s, env, init, inputs);
            first.accepted ==> ProcessInit(first.server, env, init, inputs2) == InitResult(true, first.server, [])
  {
  }

  // ---------------------------------------------------------------------
  // Enlist
  // ---------------------------------------------------------------------

  /** This server's Enlist: its id, the Init, its new ephemeral key and DH component, signed. */
  function EnlistOf(env: Env, init: IM.ServerInit, inputs: Fresh): (e: EM.ServerEnlist)
    ensures e.peerId == env.self && e.init == init
    ensures e.key == inputs.ephemeralKey && e.optional == inputs.optional
    ensures OpenEnvelope(e.packet) == (e.payload, env.sign(e.payload))
  {
    var unsigned := EM.FromFields(env.self, init, inputs.ephemeralKey, inputs.optional);
    EM.SetSignature(unsigned, env.sign(unsigned.payload))
  }

  /**
   * SendEnlist: enlisting starts afresh with new round data; the signed
   * Enlist goes to every server.
   */
  function SendEnlist(s: Server, env: Env, init: IM.ServerInit, inputs: Fresh): (r: Step)
    ensures r.server == s.(phase := Enlisting, enlists := map[],
                           ephemeralKey := inputs.ephemeralKey, optional := inputs.optional)
    ensures r.effects == Broadcast(env, "Enlist", EnlistOf(env, init, inputs).packet)
    ensures ToServers(env, r.effects)
    ensures IM.FromPacket(init.packet) == init ==>
              forall i :: 0 <= i < |r.effects| ==> EM.FromPacket(r.effects[i].packet) == EnlistOf(env, init, inputs)
  {
    EnlistOfParses(env, init, inputs);
    var s1 := s.(phase := Enlisting, enlists := map[], ephemeralKey := inputs.ephemeralKey, optional := inputs.optional);
    Step(s1, Broadcast(env, "Enlist", EnlistOf(env, init, inputs).packet))
  }

  /** A receiver of this server's Enlist parses it back, when the Init it carries parses back. */
  lemma EnlistOfParses(env: Env, init: IM.ServerInit, inputs: Fresh)
    ensures IM.FromPacket(init.packet) == init ==>
              EM.FromPacket(EnlistOf(env, init, inputs).packet) == EnlistOf(env, init, inputs)
  {
    if IM.FromPacket(init.packet) == init {
      var unsigned := EM.FromFields(env.self, init, inputs.ephemeralKey, inputs.optional);
      EM.RoundTrip(env.self, init, inputs.ephemeralKey, inputs.optional, env.sign(unsigned.payload));
    }
  }

  /** The Enlist payloads in the ascending-id order QMap iterates them. */
  function EnlistPayloads(enlists: map<Id, EM.ServerEnlist>): (r: seq<Bytes>)
    ensures |r| == |enlists.Keys|
    ensures forall i :: 0 <= i < |r| ==> r[i] == enlists[SortedKeys(enlists)[i]].payload
  {
    var values := ValuesByKey(enlists);
    seq(|values|, i requires 0 <= i < |values| => values[i].payload)
  }

  /** This server's Agree: its id, the round id, the ephemeral key and DH component it enlisted with. */
  function AgreeOf(s: Server, env: Env, roundId: Bytes): (a: AG.ServerAgree)
    ensures a.peerId == env.self && a.roundId == roundId
    ensures a.key == s.ephemeralKey && a.optional == s.optional
    ensures OpenEnvelope(a.packet) == (a.payload, env.sign(a.payload))
  {
    var unsigned := AG.FromFields(env.self, roundId, s.ephemeralKey, s.optional);
    AG.SetSignature(unsigned, env.sign(unsigned.payload))
  }

  /** The checks an Enlist from a server must pass once its Init is accepted. */
  predicate EnlistAcceptable(s: Server, env: Env, remote: Id, e: EM.ServerEnlist)
  {
    && Verifies(env, remote, e.payload, e.signature)
    && e.peerId == remote
    && env.crypto.keyValid(e.key)
  }

  /**
   * HandleEnlist: queued while offline. Otherwise it must come from a
   * server, and its embedded Init must pass ProcessInit before the Enlist
   * itself is looked at.
   */
  function HandleEnlist(s: Server, env: Env, n: Notification, inputs: Fresh): (r: Step)
    requires |env.serverIds| > 0
    ensures s.phase == Offline ==> r == Step(s.(queue := s.queue + [n]), [])
    ensures s.phase != Offline && !(n.from.OverlaySender? && IsServer(env, n.from.id)) ==> r == Step(s, [])
    ensures s.phase != Offline && n.from.OverlaySender? && IsServer(env, n.from.id) ==>
              var p := ProcessInit(s, env, EM.FromPacket(n.data).init, inputs);
              && (!p.accepted ==> r == Step(s, []))
              && (p.accepted ==>
                    var a := AcceptEnlist(p.server, env, n.from.id, n);
                    r == Step(a.server, p.effects + a.effects))
    ensures RosterKept(s, r.server)
    ensures r.server.phase in {s.phase, WaitingForServers, Enlisting, Agreeing, Registering}
  {
    if s.phase == Offline then Step(s.(queue := s.queue + [n]), [])
    else match n.from
      case OtherSender => Step(s, [])
      case OverlaySender(remote) =>
        if !IsServer(env, remote) then Step(s, [])
        else
          var p := ProcessInit(s, env, EM.FromPacket(n.data).init, inputs);
          if !p.accepted then Step(s, [])
          else
            var a := AcceptEnlist(p.server, env, remote, n);
            Step(a.server, p.effects + a.effects)
  }

  /**
   * The Enlist itself: a second one from a server is dropped; while still
   * waiting for servers it is queued. The signature, the signed id and
   * the ephemeral key are checked, and the Enlist is kept. When every
   * server has enlisted, the round id is the hash of the Enlist payloads,
   * the Agree goes out, and of the queued notifications only the Agrees
   * are handled.
   */
  function AcceptEnlist(s: Server, env: Env, remote: Id, n: Notification): (r: Step)
    ensures remote in s.enlists ==> r == Step(s, [])
    ensures remote !in s.enlists && s.phase == WaitingForServers ==> r == Step(s.(queue := s.queue + [n]), [])
    ensures remote !in s.enlists && s.phase != WaitingForServers ==>
              var e := EM.FromPacket(n.data);
              var enlists := s.enlists[remote := e];
              && (!EnlistAcceptable(s, env, remote, e) ==> r == Step(s, []))
              && (EnlistAcceptable(s, env, remote, e) && |enlists| != |env.serverIds| ==>
                    r == Step(s.(enlists := enlists), []))
              && (EnlistAcceptable(s, env, remote, e) && |enlists| == |env.serverIds| ==>
                    && r == FinishEnlist(s.(enlists := enlists), env)
                    && r.server.session.roundId == env.hash(EnlistPayloads(enlists)))
    ensures RosterKept(s, r.server)
    ensures r.server.phase in {s.phase, Agreeing, Registering}
  {
    var e := EM.FromPacket(n.data);
    if remote in s.enlists then Step(s, [])
    else if s.phase == WaitingForServers then Step(s.(queue := s.queue + [n]), [])
    else if !Verifies(env, remote, e.payload, e.signature) then Step(s, [])
    else if e.peerId != remote then Step(s, [])
    else if !env.crypto.keyValid(e.key) then Step(s, [])
    else
      var s1 := s.(enlists := s.enlists[remote := e]);
      if |s1.enlists| != |env.serverIds| then Step(s1, [])
      else FinishEnlist(s1, env)
  }

  /**
   * The end of enlisting: set the round id, send the Agree, switch to
   * agreeing, and handle the queued Agrees in arrival order; every other
   * queued notification is dropped.
   */
  function FinishEnlist(s: Server, env: Env): (r: Step)
    ensures r.server.session.roundId == env.hash(EnlistPayloads(s.enlists))
    ensures r.server.queue == []
    ensures var roundId := env.hash(EnlistPayloads(s.enlists));
            var s1 := s.(session := s.session.(roundId := roundId), phase := Agreeing, queue := []);
            var replay := ReplayAgrees(s1, env, CallsTo(s.queue, "Agree"));
            && r.server == replay.server
            && r.effects == Broadcast(env, "Agree", AgreeOf(s, env, roundId).packet) + replay.effects
    ensures RosterKept(s, r.server)
    ensures r.server.phase in {Agreeing, Registering}
  {
    var roundId := env.hash(EnlistPayloads(s.enlists));
    var agree := AgreeOf(s, env, roundId);
    var s1 := s.(session := s.session.(roundId := roundId), phase := Agreeing, queue := []);
    var replay := ReplayAgrees(s1, env, CallsTo(s.queue, "Agree"));
    Step(replay.server, Broadcast(env, "Agree", agree.packet) + replay.effects)
  }

  /** The queued notifications for one method, in arrival order. */
  function CallsTo(q: seq<Notification>, rpc: string): (r: seq<Notification>)
    ensures forall i :: 0 <= i < |r| ==> r[i].rpc == rpc && r[i] in q
    ensures forall i :: 0 <= i < |q| && q[i].rpc == rpc ==> q[i] in r
    ensures |q| == 1 ==> r == (if q[0].rpc == rpc then q else [])
  {
    if |q| == 0 then []
    else
      var rest := CallsTo(q[1..], rpc);
      assert forall i :: 1 <= i < |q| ==> q[i] == q[1..][i - 1];
      if q[0].rpc == rpc then [q[0]] + rest else rest
  }

  /**
   * The selection works notification by notification, so arrival order
   * and repeated notifications are kept: together with the
   * one-notification case this pins CallsTo down.
   */
  lemma {:induction false} CallsToConcat(a: seq<Notification>, b: seq<Notification>, rpc: string)
    ensures CallsTo(a + b, rpc) == CallsTo(a, rpc) + CallsTo(b, rpc)
    decreases |a|
  {
    if |a| == 0 {
      assert a + b == b;
    } else {
      assert (a + b)[1..] == a[1..] + b;
      CallsToConcat(a[1..], b, rpc);
    }
  }

  /** HandleAgree applied to each notification in turn. */
  function ReplayAgrees(s: Server, env: Env, q: seq<Notification>): (r: Step)
    ensures s.queue == [] && s.phase != Enlisting ==> r.server.queue == []
    ensures r.server.session.roundId == s.session.roundId
    ensures RosterKept(s, r.server) && r.server.enlists == s.enlists
    ensures r.server.phase in {s.phase, Registering}
    decreases |q|
  {
    if |q| == 0 then Step(s, [])
    else
      var first := HandleAgree(s, env, q[0]);
      var rest := ReplayAgrees(first.server, env, q[1..]);
      Step(rest.server, first.effects + rest.effects)
  }

  // ---------------------------------------------------------------------
  // Agree, Queue and Register
  // ---------------------------------------------------------------------

  /** The checks an Agree from a server must pass against the session and its Enlist. */
  predicate AgreeAcceptable(s: Server, env: Env, remote: Id, a: AG.ServerAgree)
  {
    && a.peerId == remote
    && S.CheckServerAgree(s.session, env.crypto, a)
    && remote in s.enlists
    && s.enlists[remote].peerId == a.peerId
    && s.enlists[remote].key == a.key
    && s.enlists[remote].optional == a.optional
  }

  /**
   * HandleAgree: queued while enlisting and dropped in any state but
   * agreeing. It must come from a server not heard from yet, carry that
   * server's id, pass CheckServerAgree, and repeat the id, ephemeral key
   * and optional data of that server's Enlist. With one Agree per server
   * the agreed list becomes the session's server list, registration opens
   * under a new register timer, and the clients that queued early get
   * their Queued reply.
   */
  function HandleAgree(s: Server, env: Env, n: Notification): (r: Step)
    ensures s.phase == Enlisting ==> r == Step(s.(queue := s.queue + [n]), [])
    ensures s.phase != Enlisting && s.phase != Agreeing ==> r == Step(s, [])
    ensures s.phase == Agreeing && !(n.from.OverlaySender? && IsServer(env, n.from.id) && n.from.id !in s.agrees) ==>
              r == Step(s, [])
    ensures s.phase == Agreeing && n.from.OverlaySender? && IsServer(env, n.from.id) && n.from.id !in s.agrees ==>
              var a := AG.FromPacket(n.data);
              && (!AgreeAcceptable(s, env, n.from.id, a) ==> r == Step(s, []))
              && (AgreeAcceptable(s, env, n.from.id, a) ==>
                    var agrees := s.agrees[n.from.id := a];
                    && (|agrees| != |env.serverIds| ==> r == Step(s.(agrees := agrees), []))
                    && (|agrees| == |env.serverIds| ==>
                          && r.server.phase == Registering
                          && r.server.session.servers == ValuesByKey(agrees)
                          && r.server.agreeBytes == AG.SerializeList(ValuesByKey(agrees))))
    ensures r.server.phase in {s.phase, Registering}
    ensures s.phase != Enlisting ==> r.server.queue == s.queue
    ensures r.server.session.roundId == s.session.roundId
    ensures r.server.enlists == s.enlists
    ensures RosterKept(s, r.server)
    ensures || r.server.agrees == s.agrees
            || (&& n.from.OverlaySender? && IsServer(env, n.from.id) && n.from.id !in s.agrees
                && AgreeAcceptable(s, env, n.from.id, AG.FromPacket(n.data))
                && r.server.agrees == s.agrees[n.from.id := AG.FromPacket(n.data)])
  {
    HandleAgreeBy(s, env, n, (e: EM.ServerEnlist, a: AG.ServerAgree) => e.key == a.key)
  }

  /**
   * The Agree handler with the comparison of the Agree's ephemeral key
   * against its sender's Enlist left as a parameter: `HandleAgree` compares
   * key bytes, `HandleAgreeAsWritten` compares key objects.
   */
  function HandleAgreeBy(s: Server, env: Env, n: Notification,
                         sameKey: (EM.ServerEnlist, AG.ServerAgree) -> bool): Step
  {
    if s.phase == Enlisting then Step(s.(queue := s.queue + [n]), [])
    else if s.phase != Agreeing then Step(s, [])
    else match n.from
      case OtherSender => Step(s, [])
      case OverlaySender(remote) =>
        if !IsServer(env, remote) then Step(s, [])
        else if remote in s.agrees then Step(s, [])
        else
          var a := AG.FromPacket(n.data);
          if a.peerId != remote then Step(s, [])
          else if !S.CheckServerAgree(s.session, env.crypto, a) then Step(s, [])
          // Under AgreeingHasAllEnlists every server has an Enlist here.
          else if remote !in s.enlists then Step(s, [])
          else
            var e := s.enlists[remote];
            if e.peerId != a.peerId || !sameKey(e, a) || e.optional != a.optional then Step(s, [])
            else
              var s1 := s.(agrees := s.agrees[remote := a]);
              if |s1.agrees| != |env.serverIds| then Step(s1, [])
              else FinishAgree(s1, env)
  }

  /**
   * HandleAgree as written: the Enlist's key and the Agree's key are
   * compared as shared pointers, which are equal only when both point to
   * one key object. `sameObject` says when that holds; since every Enlist
   * and every Agree builds its own key object when it is parsed,
   * `SeparatelyParsed` says it never does.
   */
  function HandleAgreeAsWritten(s: Server, env: Env, n: Notification,
                                sameObject: (EM.ServerEnlist, AG.ServerAgree) -> bool): (r: Step)
    ensures r.server.enlists == s.enlists
    ensures r.server.phase in {s.phase, Registering}
    ensures r.server.agrees == s.agrees
            || (&& n.from.OverlaySender? && n.from.id in s.enlists
                && sameObject(s.enlists[n.from.id], AG.FromPacket(n.data))
                && r.server.agrees == s.agrees[n.from.id := AG.FromPacket(n.data)])
  {
    HandleAgreeBy(s, env, n, sameObject)
  }

  /** No Enlist shares its key object with any Agree. */
  ghost predicate SeparatelyParsed(sameObject: (EM.ServerEnlist, AG.ServerAgree) -> bool)
  {
    forall e: EM.ServerEnlist, a: AG.ServerAgree :: !sameObject(e, a)
  }

  /**
   * With separately parsed keys the as-written check rejects every Agree:
   * none is stored and the session never leaves agreeing for registering.
   */
  lemma AsWrittenNeverAgrees(s: Server, env: Env, n: Notification,
                             sameObject: (EM.ServerEnlist, AG.ServerAgree) -> bool)
    requires SeparatelyParsed(sameObject)
    ensures var r := HandleAgreeAsWritten(s, env, n, sameObject).server;
            && r.agrees == s.agrees
            && (s.phase != Registering ==> r.phase != Registering)
  {
  }

  /**
   * The corrected check stores an Agree that passes the session checks and
   * repeats the id, key and optional data of its sender's Enlist; the
   * as-written check drops that same Agree.
   */
  lemma MatchingAgreeStored(s: Server, env: Env, n: Notification,
                            sameObject: (EM.ServerEnlist, AG.ServerAgree) -> bool)
    requires SeparatelyParsed(sameObject)
    requires s.phase == Agreeing && n.from.OverlaySender?
    requires IsServer(env, n.from.id) && n.from.id !in s.agrees
    requires AgreeAcceptable(s, env, n.from.id, AG.FromPacket(n.data))
    ensures n.from.id in HandleAgree(s, env, n).server.agrees
    ensures n.from.id !in HandleAgreeAsWritten(s, env, n, sameObject).server.agrees
  {
  }

  /**
   * The end of agreeing: the servers in ascending id order become the
   * session's server list with its serialisation, registration opens, and
   * each client that queued early is answered.
   */
  function FinishAgree(s: Server, env: Env): (r: Step)
    ensures r.server.phase == Registering
    ensures r.server.session == S.SetServers(s.session, ValuesByKey(s.agrees))
    ensures r.server.agreeBytes == AG.SerializeList(ValuesByKey(s.agrees))
    ensures r.server == s.(phase := Registering, session := r.server.session, agreeBytes := r.server.agreeBytes)
    ensures r.effects == [StopRegisterTimer, StartRegisterTimer(RoundTimer)] + QueuedReplies(s.queued, r.server.agreeBytes)
    ensures |r.server.session.servers| == |s.agrees.Keys|
    ensures forall i :: 0 <= i < |r.server.session.servers| ==>
              r.server.session.servers[i] == s.agrees[SortedKeys(s.agrees)[i]]
    ensures (forall k :: k in s.agrees ==> AG.Reparses(s.agrees[k])) ==>
              AG.DeserializeList(r.server.agreeBytes) == r.server.session.servers
    ensures forall k :: k in s.queued ==> SendQueued(k, s.queued[k], r.server.agreeBytes) in r.effects
  {
    AgreeBytesParse(s.agrees);
    var session := S.SetServers(s.session, ValuesByKey(s.agrees));
    var s1 := s.(session := session, agreeBytes := session.serverBytes, phase := Registering);
    Step(s1, [StopRegisterTimer, StartRegisterTimer(RoundTimer)] + QueuedReplies(s.queued, s1.agreeBytes))
  }

  /** The serialised agreed list deserialises to the Agrees in ascending key order. */
  lemma AgreeBytesParse(agrees: map<Id, AG.ServerAgree>)
    ensures (forall k :: k in agrees ==> AG.Reparses(agrees[k])) ==>
              AG.DeserializeList(AG.SerializeList(ValuesByKey(agrees))) == ValuesByKey(agrees)
  {
    if forall k :: k in agrees ==> AG.Reparses(agrees[k]) {
      AG.ListRoundTrip(ValuesByKey(agrees));
    }
  }

  /** A Queued reply, carrying the agreed server list, to each early client in ascending id order. */
  function QueuedReplies(queued: map<Id, Bytes>, agreeBytes: Bytes): (r: seq<Effect>)
    ensures |r| == |queued.Keys|
    ensures forall i :: 0 <= i < |r| ==>
              var id := SortedKeys(queued)[i];
              r[i] == SendQueued(id, queued[id], agreeBytes)
    ensures forall k :: k in queued ==> SendQueued(k, queued[k], agreeBytes) in r
  {
    var ids := SortedKeys(queued);
    seq(|ids|, i requires 0 <= i < |ids| => SendQueued(ids[i], queued[ids[i]], agreeBytes))
  }

  /**
   * HandleQueue: from a client only. While registering the client is
   * answered at once; otherwise its nonce is kept for the Queued reply
   * sent when registration opens.
   */
  function HandleQueue(s: Server, env: Env, n: Notification): (r: Step)
    ensures !(n.from.OverlaySender? && !IsServer(env, n.from.id)) ==> r == Step(s, [])
    ensures n.from.OverlaySender? && !IsServer(env, n.from.id) && s.phase == Registering ==>
              r == Step(s, [SendQueued(n.from.id, n.data, s.agreeBytes)])
    ensures n.from.OverlaySender? && !IsServer(env, n.from.id) && s.phase != Registering ==>
              r == Step(s.(queued := s.queued[n.from.id := n.data]), [])
    ensures r.server.(queued := s.queued) == s
    ensures forall k :: k in r.server.queued && k !in s.queued ==> n.from == RD.OverlaySender(k) && !IsServer(env, k)
    ensures |r.effects| <= 1
    ensures r.effects != [] ==> s.phase == Registering && r.effects == [SendQueued(n.from.id, n.data, s.agreeBytes)]
  {
    match n.from
    case OtherSender => Step(s, [])
    case OverlaySender(remote) =>
      if IsServer(env, remote) then Step(s, [])
      else if s.phase == Registering then Step(s, [SendQueued(remote, n.data, s.agreeBytes)])
      else Step(s.(queued := s.queued[remote := n.data]), [])
  }

  /**
   * CheckClientRegister: a registration must carry the current round id
   * and a valid signature under the client's long-term key.
   */
  predicate CheckClientRegister(s: Server, env: Env, c: RG.ClientRegister)
  {
    c.roundId == s.session.roundId && Verifies(env, c.peerId, c.payload, c.signature)
  }

  /**
   * HandleRegister: only while registering and only from a client; one
   * registration per client, carrying the sender's own id and passing
   * CheckClientRegister.
   */
  function HandleRegister(s: Server, env: Env, n: Notification): (r: Step)
    ensures r.effects == []
    ensures s.phase != Registering ==> r.server == s
    ensures !(n.from.OverlaySender? && !IsServer(env, n.from.id)) ==> r.server == s
    ensures r.server != s ==>
              var c := RG.FromPacket(n.data);
              && s.phase == Registering
              && n.from.OverlaySender? && !IsServer(env, n.from.id)
              && n.from.id !in s.registered
              && c.peerId == n.from.id
              && CheckClientRegister(s, env, c)
              && r.server == s.(registered := s.registered[n.from.id := c])
    ensures s.phase == Registering && n.from.OverlaySender? && !IsServer(env, n.from.id)
            && n.from.id !in s.registered && RG.FromPacket(n.data).peerId == n.from.id
            && CheckClientRegister(s, env, RG.FromPacket(n.data)) ==>
              r.server == s.(registered := s.registered[n.from.id := RG.FromPacket(n.data)])
  {
    if s.phase != Registering then Step(s, [])
    else match n.from
      case OtherSender => Step(s, [])
      case OverlaySender(remote) =>
        if IsServer(env, remote) then Step(s, [])
        else
          var c := RG.FromPacket(n.data);
          if remote in s.registered then Step(s, [])
          else if c.peerId != remote then Step(s, [])
          else if !CheckClientRegister(s, env, c) then Step(s, [])
          else Step(s.(registered := s.registered[remote := c]), [])
  }

  // ---------------------------------------------------------------------
  // List and VerifyList
  // ---------------------------------------------------------------------

  /** This server's signed list of the clients registered with it. */
  function ListOf(env: Env, clients: seq<RG.ClientRegister>): (l: LM.ServerList)
    ensures l.registerList == clients && l.payload == RG.SerializeList(clients)
    ensures OpenEnvelope(l.packet) == (l.payload, env.sign(l.payload))
  {
    var unsigned := LM.FromList(clients);
    LM.SetSignature(unsigned, env.sign(unsigned.payload))
  }

  /**
   * FinishClientRegister, on the register timer, and SendList: the
   * registered clients in ascending id order become the session's clients
   * and their signed list goes to every server. The timer fires whatever
   * the state.
   */
  function FinishClientRegister(s: Server, env: Env): (r: Step)
    ensures r.server.phase == Rostering
    ensures r.server.session.clients == ValuesByKey(s.registered)
    ensures r.server == s.(phase := Rostering, session := s.session.(clients := ValuesByKey(s.registered)))
    ensures r.effects == Broadcast(env, "List", ListOf(env, ValuesByKey(s.registered)).packet)
    ensures ToServers(env, r.effects)
    ensures (forall k :: k in s.registered ==> RG.Reparses(s.registered[k])) ==>
              forall i :: 0 <= i < |r.effects| ==>
                LM.FromPacket(r.effects[i].packet).registerList == r.server.session.clients
  {
    var clients := ValuesByKey(s.registered);
    ListBroadcastParses(env, s.registered);
    var s1 := s.(phase := Rostering, session := s.session.(clients := clients));
    Step(s1, Broadcast(env, "List", ListOf(env, clients).packet))
  }

  /** Every copy of the broadcast signed list parses back to the registered clients in id order. */
  lemma ListBroadcastParses(env: Env, registered: map<Id, RG.ClientRegister>)
    ensures (forall k :: k in registered ==> RG.Reparses(registered[k])) ==>
              var clients := ValuesByKey(registered);
              var effects := Broadcast(env, "List", ListOf(env, clients).packet);
              forall i :: 0 <= i < |effects| ==> LM.FromPacket(effects[i].packet).registerList == clients
  {
    var clients := ValuesByKey(registered);
    LM.RoundTrip(clients, env.sign(LM.FromList(clients).payload));
    if forall k :: k in registered ==> RG.Reparses(registered[k]) {
      forall i | 0 <= i < |clients| ensures RG.Reparses(clients[i]) {
        assert SortedKeys(registered)[i] in registered;
      }
    }
  }

  /** Every entry of a list passes CheckClientRegister. */
  predicate AllRegistersValid(s: Server, env: Env, l: seq<RG.ClientRegister>)
  {
    forall i :: 0 <= i < |l| ==> CheckClientRegister(s, env, l[i])
  }

  /** The ids the entries of a list carry. */
  function PeerIds(l: seq<RG.ClientRegister>): (r: set<Id>)
    ensures forall i :: 0 <= i < |l| ==> l[i].peerId in r
    ensures forall k :: k in r ==> exists i :: 0 <= i < |l| && l[i].peerId == k
  {
    if |l| == 0 then {}
    else
      assert forall i :: 1 <= i < |l| ==> l[i] == l[1..][i - 1];
      {l[0].peerId} + PeerIds(l[1..])
  }

  /** Each entry registered under its own id, later entries overwriting earlier ones. */
  function RegisterAll(m: map<Id, RG.ClientRegister>, l: seq<RG.ClientRegister>): (r: map<Id, RG.ClientRegister>)
    ensures r.Keys == m.Keys + PeerIds(l)
    ensures forall k :: k in m && k !in PeerIds(l) ==> r[k] == m[k]
    ensures (forall k :: k in m ==> m[k].peerId == k) ==> forall k :: k in r ==> r[k].peerId == k
    decreases |l|
  {
    if |l| == 0 then m
    else RegisterAll(m[l[0].peerId := l[0]], l[1..])
  }

  /** The signed hash of the final client list that every server must match. */
  function VerifySignature(env: Env, registeredHash: Bytes): Bytes
  {
    env.sign(registeredHash)
  }

  /**
   * HandleList: accepted while agreeing, registering or rostering, from a
   * server whose list has not arrived yet. One entry failing
   * CheckClientRegister rejects the whole list; otherwise every entry is
   * registered. With every server's list in, the final client list is
   * hashed and the signed hash goes out as VerifyList, and the VerifyLists
   * queued meanwhile are handled.
   */
  function HandleList(s: Server, env: Env, n: Notification, connections: seq<Id>, serial: nat): (r: Step)
    ensures s.phase !in {Agreeing, Registering, Rostering} ==> r == Step(s, [])
    ensures !(n.from.OverlaySender? && IsServer(env, n.from.id) && n.from.id !in s.listReceived) ==> r == Step(s, [])
    ensures s.phase in {Agreeing, Registering, Rostering}
            && n.from.OverlaySender? && IsServer(env, n.from.id) && n.from.id !in s.listReceived ==>
              var l := LM.FromPacket(n.data).registerList;
              && (!AllRegistersValid(s, env, l) ==> r == Step(s, []))
              && (AllRegistersValid(s, env, l) ==>
                    var received := s.listReceived + {n.from.id};
                    var registered := RegisterAll(s.registered, l);
                    && (|received| != |env.serverIds| ==>
                          r == Step(s.(registered := registered, listReceived := received), []))
                    && (|received| == |env.serverIds| ==>
                          r.server.registeredHash == env.hash([RG.SerializeList(ValuesByKey(registered))])))
  {
    if s.phase !in {Agreeing, Registering, Rostering} then Step(s, [])
    else match n.from
      case OtherSender => Step(s, [])
      case OverlaySender(remote) =>
        if !IsServer(env, remote) then Step(s, [])
        else if remote in s.listReceived then Step(s, [])
        else
          var l := LM.FromPacket(n.data).registerList;
          if !AllRegistersValid(s, env, l) then Step(s, [])
          else
            var s1 := s.(registered := RegisterAll(s.registered, l), listReceived := s.listReceived + {remote});
            if |s1.listReceived| != |env.serverIds| then Step(s1, [])
            else FinishList(s1, env, connections, serial)
  }

  /**
   * The end of rostering: switch to verifying, fix the client list, send
   * the signed hash of its serialisation, and handle the queued
   * VerifyLists in arrival order; every other queued notification is
   * dropped.
   */
  function FinishList(s: Server, env: Env, connections: seq<Id>, serial: nat): (r: Step)
    ensures r.server.registeredHash == env.hash([RG.SerializeList(ValuesByKey(s.registered))])
    ensures r.server.session.clients == ValuesByKey(s.registered)
    ensures |r.effects| >= |env.serverIds|
    ensures var hashed := env.hash([RG.SerializeList(ValuesByKey(s.registered))]);
            r.effects[..|env.serverIds|] == Broadcast(env, "VerifyList", VerifySignature(env, hashed))
    ensures r.server.enlists == s.enlists && r.server.init == s.init
    ensures r.server.phase in {Verifying, Communicating}
  {
    var clients := ValuesByKey(s.registered);
    var hashed := env.hash([RG.SerializeList(clients)]);
    var s1 := s.(phase := Verifying, session := s.session.(clients := clients),
                 registeredHash := hashed, queue := []);
    var replay := ReplayVerifyLists(s1, env, CallsTo(s.queue, "VerifyList"), connections, serial);
    var sent := Broadcast(env, "VerifyList", VerifySignature(env, hashed));
    assert (sent + replay.effects)[..|env.serverIds|] == sent;
    Step(replay.server, sent + replay.effects)
  }

  /** HandleVerifyList applied to each notification in turn. */
  function ReplayVerifyLists(s: Server, env: Env, q: seq<Notification>, connections: seq<Id>, serial: nat): (r: Step)
    ensures s.registeredHash == r.server.registeredHash
    ensures s.session.clients == r.server.session.clients
    ensures r.server.enlists == s.enlists && r.server.init == s.init
    ensures r.server.phase in {s.phase, Communicating}
    decreases |q|
  {
    if |q| == 0 then Step(s, [])
    else
      var first := HandleVerifyList(s, env, q[0], connections, serial);
      var rest := ReplayVerifyLists(first.server, env, q[1..], connections, serial);
      Step(rest.server, first.effects + rest.effects)
  }

  /**
   * HandleVerifyList: queued while rostering and dropped in any state but
   * verifying. It must come from a server not heard from yet and be that
   * server's signature over the hash of the client list. With one per
   * server the round is built and the machine moves on, the session is
   * communicating, and every connected registered client gets Start with
   * the client list and the servers' signatures in ascending id order.
   */
  function HandleVerifyList(s: Server, env: Env, n: Notification, connections: seq<Id>, serial: nat): (r: Step)
    ensures s.phase == Rostering ==> r == Step(s.(queue := s.queue + [n]), [])
    ensures s.phase != Rostering && s.phase != Verifying ==> r == Step(s, [])
    ensures s.phase == Verifying && !(n.from.OverlaySender? && IsServer(env, n.from.id) && n.from.id !in s.verified) ==>
              r == Step(s, [])
    ensures s.phase == Verifying && n.from.OverlaySender? && IsServer(env, n.from.id) && n.from.id !in s.verified ==>
              && (!Verifies(env, n.from.id, s.registeredHash, n.data) ==> r == Step(s, []))
              && (Verifies(env, n.from.id, s.registeredHash, n.data) ==>
                    var verified := s.verified[n.from.id := n.data];
                    && (|verified| != |env.serverIds| ==> r == Step(s.(verified := verified), []))
                    && (|verified| == |env.serverIds| ==>
                          && r.server.phase == Communicating
                          && r.server.verified == verified))
    ensures r.server.registeredHash == s.registeredHash
    ensures r.server.session.clients == s.session.clients
    ensures r.server.enlists == s.enlists && r.server.init == s.init
    ensures r.server.phase in {s.phase, Communicating}
  {
    if s.phase == Rostering then Step(s.(queue := s.queue + [n]), [])
    else if s.phase != Verifying then Step(s, [])
    else match n.from
      case OtherSender => Step(s, [])
      case OverlaySender(remote) =>
        if !IsServer(env, remote) then Step(s, [])
        else if remote in s.verified then Step(s, [])
        else if !Verifies(env, remote, s.registeredHash, n.data) then Step(s, [])
        else
          var s1 := s.(verified := s.verified[remote := n.data]);
          if |s1.verified| != |env.serverIds| then Step(s1, [])
          else StartCommunicating(s1, env, connections, serial)
  }

  /** The Start message: the client list and the servers' signatures, by ascending server id. */
  function StartOf(s: Server): (st: ST.ServerStart)
    ensures st.registerList == s.session.clients && st.signatures == ValuesByKey(s.verified)
    ensures st.registerBytes == RG.SerializeList(s.session.clients)
  {
    ST.FromFields(s.session.clients, ValuesByKey(s.verified), [])
  }

  /** The connected peers that registered, in connection-table order. */
  function RegisteredConnections(s: Server, connections: seq<Id>): (r: seq<Id>)
    ensures forall i :: 0 <= i < |r| ==> r[i] in s.registered && r[i] in connections
    ensures forall i :: 0 <= i < |connections| && connections[i] in s.registered ==> connections[i] in r
  {
    if |connections| == 0 then []
    else
      var rest := RegisteredConnections(s, connections[1..]);
      assert forall i :: 1 <= i < |connections| ==> connections[i] == connections[1..][i - 1];
      if connections[0] in s.registered then [connections[0]] + rest else rest
  }

  /**
   * The end of verifying: NextRound, StateComplete, communicating; Start
   * to every connected registered client, and the round starts.
   */
  function StartCommunicating(s: Server, env: Env, connections: seq<Id>, serial: nat): (r: Step)
    ensures r.server.phase == Communicating
    ensures r.server.session == S.NextRound(s.session, serial).0
    ensures var replayed := S.NextRound(s.session, serial).1;
            var to := RegisteredConnections(s, connections);
            && |r.effects| == |to| + 3
            && r.effects[..2] == [CreateRound(replayed), CompleteState]
            && (forall i :: 0 <= i < |to| ==> r.effects[2 + i] == Notify(to[i], "Start", StartOf(s).packet))
            && r.effects[|r.effects| - 1] == StartRound
  {
    var (session, replayed) := S.NextRound(s.session, serial);
    var s1 := s.(session := session, phase := Communicating);
    var to := RegisteredConnections(s, connections);
    var packet := StartOf(s).packet;
    Step(s1, RoundStartEffects(replayed, to, packet))
  }

  /** Create the round, complete the state, send Start to each listed peer in order, start the round. */
  function RoundStartEffects(replayed: seq<RD.Request>, to: seq<Id>, packet: Bytes): (r: seq<Effect>)
    ensures |r| == |to| + 3
    ensures r[..2] == [CreateRound(replayed), CompleteState]
    ensures forall i :: 0 <= i < |to| ==> r[2 + i] == Notify(to[i], "Start", packet)
    ensures r[|r| - 1] == StartRound
  {
    var starts := seq(|to|, i requires 0 <= i < |to| => Notify(to[i], "Start", packet));
    [CreateRound(replayed), CompleteState] + starts + [StartRound]
  }

  // ---------------------------------------------------------------------
  // Round end
  // ---------------------------------------------------------------------

  /**
   * HandleRoundFinished: the machine moves on, the session waits for
   * servers and Init again with every per-round map and buffer cleared,
   * and the connections are checked at once.
   */
  function HandleRoundFinished(s: Server, env: Env, connections: seq<Id>, inputs: Fresh): (r: Step)
    requires |env.serverIds| > 0
    ensures var cleared := Cleared(s);
            var checked := CheckServers(cleared, env, connections, inputs);
            r == Step(checked.server, [CompleteState] + checked.effects)
    ensures r.server.init.None? && r.server.enlists == map[] && r.server.agrees == map[]
    ensures r.server.queued == map[] && r.server.registered == map[]
    ensures r.server.listReceived == {} && r.server.verified == map[]
    ensures r.server.agreeBytes == [] && r.server.registeredHash == []
    ensures r.server.phase in {WaitingForServersAndInit, WaitingForInit}
    ensures ServerCount(env, connections) != |env.serverIds| ==> r.server.phase == WaitingForServersAndInit
  {
    var cleared := Cleared(s);
    var checked := CheckServers(cleared, env, connections, inputs);
    Step(checked.server, [CompleteState] + checked.effects)
  }

  /** The state after a round: waiting for servers and Init, nothing per-round kept. */
  function Cleared(s: Server): (r: Server)
    ensures r.phase == WaitingForServersAndInit
    ensures r.queue == s.queue && r.session == s.session
  {
    s.(phase := WaitingForServersAndInit, init := None, enlists := map[], agrees := map[],
       agreeBytes := [], queued := map[], registered := map[], registeredHash := [],
       listReceived := {}, verified := map[])
  }

  // ---------------------------------------------------------------------
  // Invariants
  // ---------------------------------------------------------------------

  /**
   * Every kept Enlist is keyed by the server that signed it, every kept
   * Agree by the server it names, every registration by the client it
   * names, and every list signature by a server.
   */
  ghost predicate Keyed(s: Server, env: Env)
  {
    && (forall k :: k in s.enlists ==>
          IsServer(env, k) && s.enlists[k].peerId == k && Verifies(env, k, s.enlists[k].payload, s.enlists[k].signature))
    && (forall k :: k in s.agrees ==> IsServer(env, k) && s.agrees[k].peerId == k)
    && (forall k :: k in s.registered ==> s.registered[k].peerId == k)
    && (forall k :: k in s.verified ==> IsServer(env, k))
  }

  /**
   * What holds between events: the kept messages are keyed by their
   * senders; while agreeing every configured server has an Enlist; a
   * session waiting for servers holds an Init.
   */
  ghost predicate Inv(s: Server, env: Env)
  {
    && Keyed(s, env)
    && (s.phase == Agreeing ==> s.enlists.Keys == Elems(env.serverIds))
    && (s.phase == WaitingForServers ==> s.init.Some?)
  }

  lemma NewInv(session: S.Session, env: Env)
    ensures Inv(New(session), env)
  {
  }

  /** A full set of Enlists from distinct configured servers is one from every server. */
  lemma FullEnlists(enlists: map<Id, EM.ServerEnlist>, env: Env)
    requires Distinct(env.serverIds)
    requires forall k :: k in enlists ==> IsServer(env, k)
    requires |enlists| == |env.serverIds|
    ensures enlists.Keys == Elems(env.serverIds)
  {
    assert |enlists.Keys| == |enlists|;
    FullSubset(enlists.Keys, env.serverIds);
  }

  lemma ProcessInitInv(s: Server, env: Env, init: IM.ServerInit, inputs: Fresh)
    requires |env.serverIds| > 0 && Inv(s, env)
    ensures Inv(ProcessInit(s, env, init, inputs).server, env)
  {
  }

  lemma CheckServersInv(s: Server, env: Env, connections: seq<Id>, inputs: Fresh)
    requires |env.serverIds| > 0 && Inv(s, env)
    ensures Inv(CheckServers(s, env, connections, inputs).server, env)
  {
  }

  lemma HandleAgreeInv(s: Server, env: Env, n: Notification)
    requires Inv(s, env)
    ensures Inv(HandleAgree(s, env, n).server, env)
  {
    AgreesKeyedBySender(s, env, n);
    var r := HandleAgree(s, env, n).server;
    assert r.enlists == s.enlists && RosterKept(s, r);
    assert r.phase in {s.phase, Registering};
  }

  lemma {:induction false} ReplayAgreesInv(s: Server, env: Env, q: seq<Notification>)
    requires Inv(s, env)
    ensures Inv(ReplayAgrees(s, env, q).server, env)
    decreases |q|
  {
    if |q| > 0 {
      HandleAgreeInv(s, env, q[0]);
      ReplayAgreesInv(HandleAgree(s, env, q[0]).server, env, q[1..]);
    }
  }

  /** The end of enlisting keeps the invariant once every configured server has enlisted. */
  lemma FinishEnlistInv(s: Server, env: Env)
    requires Distinct(env.serverIds)
    requires Keyed(s, env)
    requires |s.enlists| == |env.serverIds|
    ensures Inv(FinishEnlist(s, env).server, env)
  {
    FullEnlists(s.enlists, env);
    var roundId := env.hash(EnlistPayloads(s.enlists));
    var s1 := s.(session := s.session.(roundId := roundId), phase := Agreeing, queue := []);
    assert Inv(s1, env);
    ReplayAgreesInv(s1, env, CallsTo(s.queue, "Agree"));
  }

  /** Storing an acceptable Enlist under its sender keeps the messages keyed. */
  lemma KeyedAddEnlist(s: Server, env: Env, remote: Id, e: EM.ServerEnlist)
    requires Keyed(s, env) && IsServer(env, remote) && EnlistAcceptable(s, env, remote, e)
    ensures Keyed(s.(enlists := s.enlists[remote := e]), env)
  {
  }

  /** Accepting an Enlist keeps the invariant; the switch to agreeing needs distinct server ids. */
  lemma AcceptEnlistInv(s: Server, env: Env, remote: Id, n: Notification)
    requires Distinct(env.serverIds) && Inv(s, env) && IsServer(env, remote)
    ensures Inv(AcceptEnlist(s, env, remote, n).server, env)
  {
    var e := EM.FromPacket(n.data);
    var r := AcceptEnlist(s, env, remote, n).server;
    if remote in s.enlists {
      assert r == s;
    } else if s.phase == WaitingForServers {
      assert r == s.(queue := s.queue + [n]);
    } else if !EnlistAcceptable(s, env, remote, e) {
      assert r == s;
    } else {
      assert s.phase != Agreeing;
      var s1 := s.(enlists := s.enlists[remote := e]);
      KeyedAddEnlist(s, env, remote, e);
      if |s1.enlists| == |env.serverIds| {
        FinishEnlistInv(s1, env);
      } else {
        assert r == s1;
      }
    }
  }

  /** HandleEnlist keeps the invariant. */
  lemma HandleEnlistInv(s: Server, env: Env, n: Notification, inputs: Fresh)
    requires |env.serverIds| > 0 && Distinct(env.serverIds) && Inv(s, env)
    ensures Inv(HandleEnlist(s, env, n, inputs).server, env)
  {
    if s.phase != Offline && n.from.OverlaySender? && IsServer(env, n.from.id) {
      var e := EM.FromPacket(n.data);
      ProcessInitInv(s, env, e.init, inputs);
      var p := ProcessInit(s, env, e.init, inputs);
      if p.accepted {
        AcceptEnlistInv(p.server, env, n.from.id, n);
      }
    }
  }

  lemma OnStartInv(s: Server, env: Env, connections: seq<Id>, inputs: Fresh)
    requires |env.serverIds| > 0 && Inv(s, env)
    ensures Inv(OnStart(s, env, connections, inputs).server, env)
  {
    CheckServersInv(s.(phase := WaitingForServersAndInit), env, connections, inputs);
  }

  lemma HandleConnectionInv(s: Server, env: Env, remote: Id, connections: seq<Id>, inputs: Fresh)
    requires |env.serverIds| > 0 && Inv(s, env)
    ensures Inv(HandleConnection(s, env, remote, connections, inputs).server, env)
  {
    if IsServer(env, remote) {
      CheckServersInv(s, env, connections, inputs);
    }
  }

  lemma HandleInitInv(s: Server, env: Env, n: Notification, inputs: Fresh)
    requires |env.serverIds| > 0 && Inv(s, env)
    ensures Inv(HandleInit(s, env, n, inputs).server, env)
  {
    if s.phase != Offline && n.from.OverlaySender? && n.from.id == env.serverIds[0] {
      ProcessInitInv(s, env, IM.FromPacket(n.data), inputs);
    }
  }

  lemma HandleQueueInv(s: Server, env: Env, n: Notification)
    requires Inv(s, env)
    ensures Inv(HandleQueue(s, env, n).server, env)
  {
  }

  lemma HandleRegisterInv(s: Server, env: Env, n: Notification)
    requires Inv(s, env)
    ensures Inv(HandleRegister(s, env, n).server, env)
  {
  }

  lemma FinishClientRegisterInv(s: Server, env: Env)
    requires Inv(s, env)
    ensures Inv(FinishClientRegister(s, env).server, env)
  {
  }

  lemma HandleVerifyListInv(s: Server, env: Env, n: Notification, connections: seq<Id>, serial: nat)
    requires Inv(s, env)
    ensures Inv(HandleVerifyList(s, env, n, connections, serial).server, env)
  {
  }

  lemma {:induction false} ReplayVerifyListsInv(s: Server, env: Env, q: seq<Notification>, connections: seq<Id>, serial: nat)
    requires Inv(s, env)
    ensures Inv(ReplayVerifyLists(s, env, q, connections, serial).server, env)
    decreases |q|
  {
    if |q| > 0 {
      HandleVerifyListInv(s, env, q[0], connections, serial);
      ReplayVerifyListsInv(HandleVerifyList(s, env, q[0], connections, serial).server, env, q[1..], connections, serial);
    }
  }

  lemma FinishListInv(s: Server, env: Env, connections: seq<Id>, serial: nat)
    requires Inv(s, env)
    ensures Inv(FinishList(s, env, connections, serial).server, env)
  {
    var clients := ValuesByKey(s.registered);
    var hashed := env.hash([RG.SerializeList(clients)]);
    var s1 := s.(phase := Verifying, session := s.session.(clients := clients),
                 registeredHash := hashed, queue := []);
    ReplayVerifyListsInv(s1, env, CallsTo(s.queue, "VerifyList"), connections, serial);
  }

  lemma HandleListInv(s: Server, env: Env, n: Notification, connections: seq<Id>, serial: nat)
    requires Inv(s, env)
    ensures Inv(HandleList(s, env, n, connections, serial).server, env)
  {
    if s.phase in {Agreeing, Registering, Rostering} && n.from.OverlaySender? && IsServer(env, n.from.id)
       && n.from.id !in s.listReceived
    {
      var l := LM.FromPacket(n.data).registerList;
      if AllRegistersValid(s, env, l) {
        var s1 := s.(registered := RegisterAll(s.registered, l), listReceived := s.listReceived + {n.from.id});
        assert Inv(s1, env);
        if |s1.listReceived| == |env.serverIds| {
          FinishListInv(s1, env, connections, serial);
        }
      }
    }
  }

  lemma HandleRoundFinishedInv(s: Server, env: Env, connections: seq<Id>, inputs: Fresh)
    requires |env.serverIds| > 0 && Inv(s, env)
    ensures Inv(HandleRoundFinished(s, env, connections, inputs).server, env)
  {
    CheckServersInv(Cleared(s), env, connections, inputs);
  }

  /**
   * While agreeing, every server's Agree finds that server's Enlist, so
   * the lookup the source makes never comes back empty.
   */
  lemma AgreeingHasAllEnlists(s: Server, env: Env, remote: Id)
    requires Inv(s, env) && s.phase == Agreeing && IsServer(env, remote)
    ensures remote in s.enlists
  {
  }

  /** Every kept Agree was signed by, and keyed under, the server it came from. */
  lemma AgreesKeyedBySender(s: Server, env: Env, n: Notification)
    requires forall k :: k in s.agrees ==> IsServer(env, k) && s.agrees[k].peerId == k
    ensures var r := HandleAgree(s, env, n).server;
            forall k :: k in r.agrees ==> IsServer(env, k) && r.agrees[k].peerId == k
  {
  }

  /**
   * An Agree that is kept repeats the key and optional data of its
   * sender's Enlist, and its round id is the session's.
   */
  lemma AgreeMatchesEnlist(s: Server, env: Env, n: Notification)
    requires s.phase == Agreeing && n.from.OverlaySender?
    ensures var r := HandleAgree(s, env, n).server;
            n.from.id in r.agrees && n.from.id !in s.agrees ==>
              var a := r.agrees[n.from.id];
              && n.from.id in s.enlists
              && a.key == s.enlists[n.from.id].key
              && a.optional == s.enlists[n.from.id].optional
              && a.roundId == s.session.roundId
  {
  }

  /** Every kept registration carries its sender's id and the current round id. */
  lemma RegisterKeepsRoundId(s: Server, env: Env, n: Notification)
    requires forall k :: k in s.registered ==> s.registered[k].peerId == k && s.registered[k].roundId == s.session.roundId
    ensures var r := HandleRegister(s, env, n).server;
            forall k :: k in r.registered ==> r.registered[k].peerId == k && r.registered[k].roundId == r.session.roundId
  {
  }

  /**
   * Registration opens only once every configured server's Agree is in,
   * each signed by that server over the session's round id.
   */
  lemma RegisteringAfterEveryAgree(s: Server, env: Env, n: Notification)
    requires Distinct(env.serverIds)
    requires s.phase == Agreeing
    requires forall k :: k in s.agrees ==> IsServer(env, k) && s.agrees[k].roundId == s.session.roundId
    ensures var r := HandleAgree(s, env, n).server;
            r.phase == Registering ==>
              && r.agrees.Keys == Elems(env.serverIds)
              && forall k :: k in r.agrees ==> r.agrees[k].roundId == s.session.roundId
  {
    var r := HandleAgree(s, env, n).server;
    if r.phase == Registering {
      assert |r.agrees| == |env.serverIds|;
      assert |r.agrees.Keys| == |r.agrees|;
      FullSubset(r.agrees.Keys, env.serverIds);
    }
  }

  /**
   * The session communicates only once every configured server has
   * signed the hash of the same client list this server computed.
   */
  lemma CommunicatingAfterEveryVerify(s: Server, env: Env, n: Notification, connections: seq<Id>, serial: nat)
    requires Distinct(env.serverIds)
    requires s.phase == Verifying
    requires forall k :: k in s.verified ==> IsServer(env, k) && Verifies(env, k, s.registeredHash, s.verified[k])
    ensures var r := HandleVerifyList(s, env, n, connections, serial).server;
            r.phase == Communicating ==>
              && r.verified.Keys == Elems(env.serverIds)
              && forall k :: k in r.verified ==> Verifies(env, k, s.registeredHash, r.verified[k])
  {
    if && n.from.OverlaySender? && IsServer(env, n.from.id) && n.from.id !in s.verified
       && Verifies(env, n.from.id, s.registeredHash, n.data)
    {
      var verified := s.verified[n.from.id := n.data];
      if |verified| == |env.serverIds| {
        assert verified.Keys <= Elems(env.serverIds);
        assert |verified.Keys| == |verified|;
        FullSubset(verified.Keys, env.serverIds);
      }
    }
  }
}
