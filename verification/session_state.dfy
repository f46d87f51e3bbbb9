/**
 * The session layer's states on top of the generic machine: the state ids
 * of SessionStates, SessionState (which restarts on ServerStop), the
 * DummyState that parks messages until a round starts, and the machine
 * ServerSession configures.
 */
module SessionState {
  import opened Common
  import SM = StateMachine

  /**
   * SessionMessage's message types, as far as the session states use them.
   * The enumeration's numeric values are not part of this model; every
   * other type is `Other` with its own code.
   */
  datatype MessageType = ServerInitMsg | ServerStopMsg | SessionDataMsg | Other(code: int)

  /** SessionStates::Names. */
  datatype Name = Offline | ServerInit | WaitingForServer | Queuing | Communicating

  /** The qint8 id each name stands for. */
  function Value(n: Name): (v: int)
    ensures 0 <= v <= 4
  {
    match n
    case Offline => 0
    case ServerInit => 1
    case WaitingForServer => 2
    case Queuing => 3
    case Communicating => 4
  }

  /** The names are numbered from 0 in declaration order, so distinct names are distinct ids. */
  lemma ValuesInOrder(a: Name, b: Name)
    ensures Value(a) == Value(b) <==> a == b
    ensures Value(Offline) == 0 && Value(Communicating) == 4
  {
  }

  /**
   * A SessionState: a state object whose restart predicate accepts exactly
   * the ServerStop messages; the id and message type go to State unchanged.
   */
  function NewSessionState<D(!new), B(!new)>(
    state: int, msgType: MessageType,
    storePacket: SM.Message<MessageType, B> -> bool,
    processPacket: (D, Id, SM.Message<MessageType, B>) -> SM.Outcome<D>): (s: SM.StateClass<MessageType, D, B>)
    ensures s.state == state && s.msgType == msgType
    ensures forall msg :: s.restartPacket(msg) <==> msg.msgType == ServerStopMsg
    ensures forall msg :: s.storePacket(msg) == storePacket(msg)
    ensures forall d, from, msg :: s.processPacket(d, from, msg) == processPacket(d, from, msg)
  {
    SM.StateClass(state, msgType, storePacket,
      (msg: SM.Message<MessageType, B>) => msg.msgType == ServerStopMsg, processPacket)
  }

  /**
   * A ServerStop that is not a session state's own type and that it does
   * not store is classified Restart; every other unstored foreign message
   * is ignored.
   */
  lemma StopRestarts<D(!new), B(!new)>(s: SM.StateClass<MessageType, D, B>, msg: SM.Message<MessageType, B>)
    requires forall m :: s.restartPacket(m) <==> m.msgType == ServerStopMsg
    requires s.msgType != msg.msgType && !s.storePacket(msg)
    ensures SM.CheckPacket(s, msg) == SM.Restart <==> msg.msgType == ServerStopMsg
    ensures SM.CheckPacket(s, msg) == SM.Ignore <==> msg.msgType != ServerStopMsg
  {
  }

  /**
   * DummyState: state ServerInit for messages of type ServerInit, which it
   * processes without effect; it stores every other message.
   */
  function Dummy<D(!new), B(!new)>(): (s: SM.StateClass<MessageType, D, B>)
    ensures s.state == Value(ServerInit) && s.msgType == ServerInitMsg
    ensures forall msg :: s.storePacket(msg)
    ensures forall d, from, msg :: s.processPacket(d, from, msg) == SM.Returned(SM.NoChange, d)
  {
    NewSessionState(Value(ServerInit), ServerInitMsg, _ => true, (d, _, _) => SM.Returned(SM.NoChange, d))
  }

  /** The messages a DummyState keeps: all but its own type, in arrival order. */
  function Parked<B(!new)>(msgs: seq<SM.Delivery<MessageType, B>>): (r: seq<SM.Delivery<MessageType, B>>)
    ensures |r| <= |msgs|
    ensures forall i :: 0 <= i < |r| ==> r[i] in msgs && r[i].msg.msgType != ServerInitMsg
    ensures forall i :: 0 <= i < |msgs| && msgs[i].msg.msgType != ServerInitMsg ==> msgs[i] in r
    ensures |msgs| == 1 ==> r == (if msgs[0].msg.msgType == ServerInitMsg then [] else msgs)
  {
    if |msgs| == 0 then []
    else
      var rest := Parked(msgs[1..]);
      assert forall i :: 1 <= i < |msgs| ==> msgs[i] == msgs[1..][i - 1];
      if msgs[0].msg.msgType == ServerInitMsg then rest else [msgs[0]] + rest
  }

  /**
   * Parking works message by message, so arrival order and repeated
   * messages are kept: together with the one-message case this pins
   * Parked down.
   */
  lemma {:induction false} ParkedConcat<B(!new)>(a: seq<SM.Delivery<MessageType, B>>, b: seq<SM.Delivery<MessageType, B>>)
    ensures Parked(a + b) == Parked(a) + Parked(b)
    decreases |a|
  {
    if |a| == 0 {
      assert a + b == b;
    } else {
      assert (a + b)[1..] == a[1..] + b;
      ParkedConcat(a[1..], b);
    }
  }

  lemma AppendAssoc<T>(a: seq<T>, b: seq<T>, c: seq<T>)
    ensures a + (b + c) == (a + b) + c
  {
  }

  /**
   * In a DummyState ProcessData never advances the machine: a ServerInit
   * changes nothing and every other message is stored.
   */
  lemma DummyProcessData<D(!new), B(!new)>(m: SM.Machine<MessageType, D, B>, d: SM.Delivery<MessageType, B>)
    requires m.current == Some(Dummy())
    ensures d.msg.msgType == ServerInitMsg ==> SM.ProcessData(m, d) == m
    ensures d.msg.msgType != ServerInitMsg ==> SM.ProcessData(m, d) == m.(storage := m.storage + [d])
  {
    var s: SM.StateClass<MessageType, D, B> := Dummy();
    if d.msg.msgType == ServerInitMsg {
      assert SM.CheckPacket(s, d.msg) == SM.Process;
      assert SM.ResultOf(s.processPacket(m.data, d.from, d.msg)) == SM.NoChange;
    } else {
      assert SM.CheckPacket(s, d.msg) == SM.Store;
    }
  }

  /**
   * Replaying messages into a DummyState keeps it current and appends the
   * messages other than ServerInit to the storage, in their order.
   */
  lemma {:induction false} DummyReplay<D(!new), B(!new)>(m: SM.Machine<MessageType, D, B>, msgs: seq<SM.Delivery<MessageType, B>>)
    requires m.current == Some(Dummy())
    ensures SM.Replay(m, msgs) == m.(storage := m.storage + Parked(msgs))
    decreases |msgs|
  {
    if |msgs| > 0 {
      var d := msgs[0];
      DummyProcessData(m, d);
      var m' := m.(storage := m.storage + Parked([d]));
      assert SM.ProcessData(m, d) == m';
      SM.ReplayCons(m, msgs);
      DummyReplay(m', msgs[1..]);
      assert msgs == [d] + msgs[1..];
      ParkedConcat([d], msgs[1..]);
      AppendAssoc(m.storage, Parked([d]), Parked(msgs[1..]));
    } else {
      assert m.storage + [] == m.storage;
    }
  }

  /**
   * The machine ServerSession's constructor builds: DummyState under
   * ServerInit, the communicating state under Communicating, the current
   * state set to ServerInit, and the two transitions between them.
   */
  function ServerSessionMachine<D(!new), B(!new)>(data: D, comm: SM.StateClass<MessageType, D, B>): (m: SM.Machine<MessageType, D, B>)
    ensures m.current == Some(Dummy()) && m.storage == []
    ensures SM.Successor(m.transitions, Value(ServerInit)) == Value(Communicating)
    ensures SM.Successor(m.transitions, Value(Communicating)) == Value(ServerInit)
    ensures m.states.Keys == {Value(ServerInit), Value(Communicating)}
    ensures m.states[Value(Communicating)].cls == comm
  {
    var m0 := SM.New(data);
    var m1 := SM.AddState(m0, SM.StateFactory(Value(ServerInit), ServerInitMsg, Dummy()));
    var m2 := SM.AddState(m1, SM.StateFactory(Value(Communicating), SessionDataMsg, comm));
    var m3 := SM.SetState(m2, Value(ServerInit));
    var m4 := SM.AddTransition(m3, Value(ServerInit), Value(Communicating));
    SM.AddTransition(m4, Value(Communicating), Value(ServerInit))
  }

  /**
   * While the server session sits in DummyState, messages only pile up;
   * the StateComplete that starts a round moves to the communicating state
   * and replays every parked message there, in arrival order.
   */
  lemma ServerSessionParksUntilRound<D(!new), B(!new)>(data: D, comm: SM.StateClass<MessageType, D, B>, msgs: seq<SM.Delivery<MessageType, B>>)
    ensures var parked := SM.Replay(ServerSessionMachine(data, comm), msgs);
            && parked.current == Some(Dummy())
            && parked.storage == Parked(msgs)
            && SM.StateComplete(parked) ==
                 SM.Replay(parked.(current := Some(comm), storage := []), Parked(msgs))
  {
    var m := ServerSessionMachine(data, comm);
    DummyReplay(m, msgs);
    assert [] + Parked(msgs) == Parked(msgs);
    var parked := SM.Replay(m, msgs);
    assert parked.transitions[Value(ServerInit) := Value(Communicating)] == parked.transitions;
  }
}
