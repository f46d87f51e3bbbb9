/**
 * Messaging::State and Messaging::StateMachine: a message-driven machine
 * whose current state classifies each incoming message (process, store,
 * restart or ignore), follows one registered successor when a state
 * completes, and replays the messages it stored.
 *
 * A state's class is its behaviour: the store and restart predicates and
 * ProcessPacket, which sees the machine's shared data and returns the new
 * shared data with a result, or throws. State ids are the qint8 values the
 * sessions register; message types are a type parameter.
 */
module StateMachine {
  import opened Common

  datatype PacketResult = Ignore | Process | Store | Restart

  datatype ProcessResult = NoChange | NextState | Finished | StoreMessage

  datatype Message<K, B> = Message(msgType: K, body: B)

  /** A message and the peer it came from, as the machine stores it. */
  datatype Delivery<K, B> = Delivery(from: Id, msg: Message<K, B>)

  /**
   * What ProcessPacket did to the shared data, and whether it returned a
   * result or threw a QRunTimeError part way through.
   */
  datatype Outcome<D> = Returned(result: ProcessResult, data: D) | Threw(data: D)

  /** A state object: the id and message type its class gives, and its behaviour. */
  datatype StateClass<!K, !D, !B> = StateClass(
    state: int,
    msgType: K,
    storePacket: Message<K, B> -> bool,
    restartPacket: Message<K, B> -> bool,
    processPacket: (D, Id, Message<K, B>) -> Outcome<D>)

  /**
   * A StateFactory: the id and message type it is registered under, and the
   * class whose fresh instances it makes.
   */
  datatype StateFactory<!K, !D, !B> = StateFactory(state: int, msgType: K, cls: StateClass<K, D, B>)

  /**
   * The machine. `current` is None while no state object exists, and also
   * after a lookup found no registered factory (the source would follow a
   * null pointer there). `finished` is None until SetFinishedState.
   */
  datatype Machine<!K, !D, !B> = Machine(
    data: D,
    states: map<int, StateFactory<K, D, B>>,
    transitions: map<int, int>,
    current: Option<StateClass<K, D, B>>,
    storage: seq<Delivery<K, B>>,
    finished: Option<int>)

  /** A machine over shared data with no states, transitions or storage. */
  function New<K, D, B>(data: D): (m: Machine<K, D, B>)
    ensures m.data == data && m.states == map[] && m.transitions == map[]
    ensures m.current.None? && m.storage == [] && m.finished.None?
  {
    Machine(data, map[], map[], None, [], None)
  }

  /** State::CheckPacket: own message type first, then store, then restart. */
  function CheckPacket<K(==), D, B>(s: StateClass<K, D, B>, msg: Message<K, B>): (r: PacketResult)
    ensures r == Process <==> msg.msgType == s.msgType
    ensures r == Store <==> msg.msgType != s.msgType && s.storePacket(msg)
    ensures r == Restart <==> msg.msgType != s.msgType && !s.storePacket(msg) && s.restartPacket(msg)
    ensures r == Ignore <==> msg.msgType != s.msgType && !s.storePacket(msg) && !s.restartPacket(msg)
  {
    if s.msgType == msg.msgType then Process
    else if s.storePacket(msg) then Store
    else if s.restartPacket(msg) then Restart
    else Ignore
  }

  /** StateFactory::NewState: a fresh object of the factory's class. */
  function NewState<K, D, B>(f: StateFactory<K, D, B>): (s: StateClass<K, D, B>)
    ensures s == f.cls
  {
    f.cls
  }

  /** A fresh state from the factory registered under an id, if any. */
  function Instantiate<K, D, B>(states: map<int, StateFactory<K, D, B>>, id: int): (s: Option<StateClass<K, D, B>>)
    ensures s.Some? <==> id in states
    ensures id in states ==> s.value == states[id].cls
  {
    if id in states then Some(NewState(states[id])) else None
  }

  /** AddState: registers a factory under its own id, replacing any earlier one. */
  function AddState<K, D, B>(m: Machine<K, D, B>, f: StateFactory<K, D, B>): (r: Machine<K, D, B>)
    ensures r.states.Keys == m.states.Keys + {f.state} && r.states[f.state] == f
    ensures forall k :: k in m.states && k != f.state ==> r.states[k] == m.states[k]
    ensures r == m.(states := r.states)
  {
    m.(states := m.states[f.state := f])
  }

  /** AddTransition: the one successor of `from`, replacing any earlier one. */
  function AddTransition<K, D, B>(m: Machine<K, D, B>, from: int, to: int): (r: Machine<K, D, B>)
    ensures r.transitions.Keys == m.transitions.Keys + {from} && r.transitions[from] == to
    ensures forall k :: k in m.transitions && k != from ==> r.transitions[k] == m.transitions[k]
    ensures r == m.(transitions := r.transitions)
  {
    m.(transitions := m.transitions[from := to])
  }

  /** SetState: a fresh object of a registered state; an unknown id is ignored. */
  function SetState<K, D, B>(m: Machine<K, D, B>, id: int): (r: Machine<K, D, B>)
    ensures id !in m.states ==> r == m
    ensures id in m.states ==> r == m.(current := Some(m.states[id].cls))
  {
    if id !in m.states then m else m.(current := Instantiate(m.states, id))
  }

  function SetFinishedState<K, D, B>(m: Machine<K, D, B>, id: int): (r: Machine<K, D, B>)
    ensures r.finished == Some(id) && r == m.(finished := r.finished)
  {
    m.(finished := Some(id))
  }

  /** The successor of a state id: a missing transition reads as 0. */
  function Successor(transitions: map<int, int>, id: int): (next: int)
    ensures id in transitions ==> next == transitions[id]
    ensures id !in transitions ==> next == 0
  {
    if id in transitions then transitions[id] else 0
  }

  /** The parts of a machine no message changes: what was registered. */
  ghost predicate SameRegistration<K, D, B>(m: Machine<K, D, B>, r: Machine<K, D, B>)
  {
    && r.states == m.states
    && r.finished == m.finished
    && m.transitions.Keys <= r.transitions.Keys
    && forall k :: k in m.transitions ==> r.transitions[k] == m.transitions[k]
  }

  /** What a ProcessResult leaves of ProcessPacket's outcome: a throw counts as NoChange. */
  function ResultOf<D>(out: Outcome<D>): (r: ProcessResult)
    ensures out.Threw? ==> r == NoChange
    ensures out.Returned? ==> r == out.result
  {
    match out
    case Returned(result, _) => result
    case Threw(_) => NoChange
  }

  /**
   * ProcessData: classify the message with the current state; ignore it,
   * store it, or hand it to ProcessPacket. Restart is handed over exactly
   * as Process is.
   */
  function ProcessData<K(==), D, B>(m: Machine<K, D, B>, d: Delivery<K, B>): (r: Machine<K, D, B>)
    ensures SameRegistration(m, r)
    ensures |r.storage| <= |m.storage| + 1
    ensures m.current.None? ==> r == m
    ensures m.current.Some? && CheckPacket(m.current.value, d.msg) == Ignore ==> r == m
    ensures m.current.Some? && CheckPacket(m.current.value, d.msg) == Store ==>
              r == m.(storage := m.storage + [d])
    ensures m.current.Some? && CheckPacket(m.current.value, d.msg) in {Process, Restart} ==>
              r == Dispatch(m, d)
    decreases |m.storage| + 1, 0, 1
  {
    match m.current
    case None => m
    case Some(s) =>
      match CheckPacket(s, d.msg)
      case Ignore => m
      case Store => m.(storage := m.storage + [d])
      case Process => Dispatch(m, d)
      case Restart => Dispatch(m, d)
  }

  /**
   * The current state's ProcessPacket and what the machine does with its
   * result: nothing for NoChange, StoreMessage or a throw (the shared data
   * keeps what was done before the throw), StateComplete for NextState,
   * and a fresh finished state for Finished.
   */
  function Dispatch<K(==), D, B>(m: Machine<K, D, B>, d: Delivery<K, B>): (r: Machine<K, D, B>)
    requires m.current.Some?
    ensures SameRegistration(m, r)
    ensures |r.storage| <= |m.storage|
    ensures var out := m.current.value.processPacket(m.data, d.from, d.msg);
            && (ResultOf(out) in {NoChange, StoreMessage} ==> r == m.(data := out.data))
            && (ResultOf(out) == Finished ==>
                  r == m.(data := out.data, current :=
                            if m.finished.Some? then Instantiate(m.states, m.finished.value) else None))
            && (ResultOf(out) == NextState ==> r == StateComplete(m.(data := out.data)))
    decreases |m.storage| + 1, 0, 0
  {
    var out := m.current.value.processPacket(m.data, d.from, d.msg);
    var m' := m.(data := out.data);
    match ResultOf(out)
    case NoChange => m'
    case StoreMessage => m'
    case NextState => StateComplete(m')
    case Finished =>
      m'.(current := if m.finished.Some? then Instantiate(m.states, m.finished.value) else None)
  }

  /**
   * The first half of StateComplete: the successor's fresh state is
   * current, the lookup has recorded the successor, and the storage is
   * empty; shared data and registrations are untouched.
   */
  function Moved<K, D, B>(m: Machine<K, D, B>): (r: Machine<K, D, B>)
    requires m.current.Some?
    ensures var next := Successor(m.transitions, m.current.value.state);
            && r.current == Instantiate(m.states, next)
            && r.storage == []
            && r.transitions == m.transitions[m.current.value.state := next]
            && r.data == m.data && r.states == m.states && r.finished == m.finished
  {
    var next := Successor(m.transitions, m.current.value.state);
    m.(transitions := m.transitions[m.current.value.state := next],
       current := Instantiate(m.states, next),
       storage := [])
  }

  /**
   * StateComplete: move to the current state's successor, then clear the
   * storage and replay what it held, in arrival order, against the new
   * state.
   */
  function StateComplete<K(==), D, B>(m: Machine<K, D, B>): (r: Machine<K, D, B>)
    ensures SameRegistration(m, r)
    ensures |r.storage| <= |m.storage|
    ensures m.current.None? ==> r == m
    ensures m.current.Some? ==>
              var next := Successor(m.transitions, m.current.value.state);
              && m.current.value.state in r.transitions
              && r.transitions[m.current.value.state] == next
              && (m.storage == [] ==> r.current == Instantiate(m.states, next))
    ensures m.current.Some? ==> r == Replay(Moved(m), m.storage)
    decreases |m.storage|, 2, 0
  {
    match m.current
    case None => m
    case Some(s) => Replay(Moved(m), m.storage)
  }

  /** ProcessData applied to each message in turn. */
  function Replay<K(==), D, B>(m: Machine<K, D, B>, msgs: seq<Delivery<K, B>>): (r: Machine<K, D, B>)
    ensures SameRegistration(m, r)
    ensures |r.storage| <= |m.storage| + |msgs|
    ensures msgs == [] ==> r == m
    decreases |m.storage| + |msgs|, 1, |msgs|
  {
    if |msgs| == 0 then m
    else Replay(ProcessData(m, msgs[0]), msgs[1..])
  }

  /** Replaying a non-empty list processes its first message, then replays the rest. */
  lemma ReplayCons<K, D, B>(m: Machine<K, D, B>, msgs: seq<Delivery<K, B>>)
    requires |msgs| > 0
    ensures Replay(m, msgs) == Replay(ProcessData(m, msgs[0]), msgs[1..])
  {
  }

  /** Replaying a concatenation replays the first part, then the second. */
  lemma {:induction false} ReplayAppend<K, D, B>(m: Machine<K, D, B>, a: seq<Delivery<K, B>>, b: seq<Delivery<K, B>>)
    ensures Replay(m, a + b) == Replay(Replay(m, a), b)
    decreases |a|
  {
    if |a| > 0 {
      assert (a + b)[0] == a[0];
      assert (a + b)[1..] == a[1..] + b;
      ReplayAppend(ProcessData(m, a[0]), a[1..], b);
    } else {
      assert a + b == b;
    }
  }
}
