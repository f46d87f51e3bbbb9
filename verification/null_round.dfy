/**
 * Anonymity::NullRound: the round without anonymity. Every participant
 * broadcasts one cleartext block; each block fills the sender's slot, and
 * once every slot is counted the non-empty blocks are delivered in slot
 * order and the round ends successfully.
 */
module NullRound {
  import opened Common
  import R = Roster
  import RD = Round
  import DQ = DataQueue

  /**
   * The shared round state, one slot per participant, the number of
   * accepted messages, and (in the corrected model) the slots heard from.
   */
  datatype NullRound = NullRound(base: RD.RoundState, received: seq<Bytes>, heard: set<int>, msgs: nat)

  /** What a message did: the new round and the blocks pushed to the sink. */
  datatype Step = Step(round: NullRound, pushed: seq<Bytes>)

  /** A new round: servers plus clients slots, all empty, nothing counted. */
  function New(clients: R.Roster, servers: R.Roster, nonce: Bytes): (nr: NullRound)
    ensures nr.base == RD.New(clients, servers, nonce)
    ensures |nr.received| == R.Count(servers) + R.Count(clients)
    ensures forall i :: 0 <= i < |nr.received| ==> nr.received[i] == []
    ensures nr.heard == {} && nr.msgs == 0
    ensures Unfilled(nr)
  {
    NullRound(RD.New(clients, servers, nonce),
              seq(R.Count(servers) + R.Count(clients), _ => []), {}, 0)
  }

  /**
   * The slot of a sender: its server index for an overlay server, the
   * number of servers plus its client index otherwise.
   */
  function Slot(nr: NullRound, isServer: bool, id: Id): (idx: int)
  {
    if isServer then R.GetIndex(nr.base.servers, id)
    else R.Count(nr.base.servers) + R.GetIndex(nr.base.clients, id)
  }

  /**
   * With distinct ids in each roster, server i has slot i and client j has
   * slot S + j: every participant owns a slot of its own.
   */
  lemma SlotLayout(nr: NullRound, i: int, j: int)
    requires R.DistinctIds(nr.base.servers.members) && R.DistinctIds(nr.base.clients.members)
    requires 0 <= i < R.Count(nr.base.servers) && 0 <= j < R.Count(nr.base.clients)
    ensures Slot(nr, true, nr.base.servers.members[i].id) == i
    ensures Slot(nr, false, nr.base.clients.members[j].id) == R.Count(nr.base.servers) + j
  {
    R.IndexOfMember(nr.base.servers, i);
    R.IndexOfMember(nr.base.clients, j);
  }

  /** The non-empty blocks of a slot vector, in slot order. */
  function NonEmpty(s: seq<Bytes>): (r: seq<Bytes>)
    ensures |r| <= |s|
    ensures forall i :: 0 <= i < |r| ==> r[i] != [] && r[i] in s
    ensures forall i :: 0 <= i < |s| && s[i] != [] ==> s[i] in r
    ensures (forall i :: 0 <= i < |s| ==> s[i] != []) ==> r == s
    ensures |s| == 1 ==> r == (if s[0] == [] then [] else s)
  {
    if |s| == 0 then []
    else
      var rest := NonEmpty(s[1..]);
      assert forall i :: 1 <= i < |s| ==> s[i] == s[1..][i - 1];
      if s[0] == [] then rest else [s[0]] + rest
  }

  /**
   * The filter works block by block, so slot order and repeated blocks
   * are kept: together with the one-slot case this pins NonEmpty down.
   */
  lemma {:induction false} NonEmptyConcat(a: seq<Bytes>, b: seq<Bytes>)
    ensures NonEmpty(a + b) == NonEmpty(a) + NonEmpty(b)
    decreases |a|
  {
    if |a| == 0 {
      assert a + b == b;
    } else {
      assert (a + b)[1..] == a[1..] + b;
      NonEmptyConcat(a[1..], b);
    }
  }

  /** Store a block in a free slot; on the last count deliver and finish. */
  function Accept(nr: NullRound, idx: int, data: Bytes): (s: Step)
    requires 0 <= idx < |nr.received|
  {
    var received := nr.received[idx := data];
    var next := nr.(received := received, heard := nr.heard + {idx}, msgs := nr.msgs + 1);
    if next.msgs != |received| then Step(next, [])
    else Step(next.(base := RD.Stop(next.base.(successful := true))), NonEmpty(received))
  }

  /**
   * ProcessData as written: a slot counts as taken only while it holds a
   * non-empty block, so an empty block from the same sender is accepted
   * and counted again. A slot outside the vector is not modelled and is
   * ignored here.
   */
  function ProcessDataAsWritten(nr: NullRound, idx: int, data: Bytes): (s: Step)
    ensures !(0 <= idx < |nr.received|) || nr.received[idx] != [] ==> s == Step(nr, [])
    ensures 0 <= idx < |nr.received| && nr.received[idx] == [] ==>
              && s.round.msgs == nr.msgs + 1
              && s.round.received == nr.received[idx := data]
              && s.round.heard == nr.heard + {idx}
              && (s.round.msgs != |nr.received| ==> s.pushed == [] && s.round.base == nr.base)
              && (s.round.msgs == |nr.received| ==>
                    && s.pushed == NonEmpty(s.round.received)
                    && s.round.base == nr.base.(successful := true, stopped := true))
  {
    if !(0 <= idx < |nr.received|) || nr.received[idx] != [] then Step(nr, [])
    else Accept(nr, idx, data)
  }

  /**
   * One empty block sent twice by the only server of a one-server,
   * one-client round completes the round: the client's slot was never
   * filled, yet the round ends successfully.
   */
  lemma EmptyRepeatCompletes(server: R.PublicIdentity, client: R.PublicIdentity, nonce: Bytes)
    ensures var nr := New(R.Roster([client]), R.Roster([server]), nonce);
            var first := ProcessDataAsWritten(nr, 0, []);
            var second := ProcessDataAsWritten(first.round, 0, []);
            && first.round.msgs == 1
            && second.round.msgs == |second.round.received| == 2
            && second.round.base.successful && second.round.base.stopped
            && 1 !in second.round.heard
  {
  }

  /**
   * ProcessData, corrected: each slot is accepted once, whatever its
   * block; on the last count the non-empty blocks go out in slot order
   * and the round is marked successful and stopped.
   */
  function ProcessData(nr: NullRound, idx: int, data: Bytes): (s: Step)
    ensures !(0 <= idx < |nr.received|) || idx in nr.heard ==> s == Step(nr, [])
    ensures 0 <= idx < |nr.received| && idx !in nr.heard ==>
              && s.round.received == nr.received[idx := data]
              && s.round.heard == nr.heard + {idx}
              && s.round.msgs == nr.msgs + 1
              && (s.round.msgs != |nr.received| ==> s.pushed == [] && s.round.base == nr.base)
              && (s.round.msgs == |nr.received| ==>
                    && s.pushed == NonEmpty(s.round.received)
                    && s.round.base == nr.base.(successful := true, stopped := true))
  {
    if !(0 <= idx < |nr.received|) || idx in nr.heard then Step(nr, [])
    else Accept(nr, idx, data)
  }

  /** The count is the number of distinct slots heard from. */
  ghost predicate Valid(nr: NullRound)
  {
    && nr.msgs == |nr.heard|
    && (forall i :: i in nr.heard ==> 0 <= i < |nr.received|)
  }

  function AllSlots(n: nat): (s: set<int>)
    ensures forall i :: i in s <==> 0 <= i < n
    ensures |s| == n
  {
    if n == 0 then {} else
      var s := AllSlots(n - 1) + {n - 1};
      assert n - 1 !in AllSlots(n - 1);
      s
  }

  /**
   * The corrected ProcessData keeps the count equal to the slots heard,
   * so a round completes only once every participant has been heard.
   */
  lemma CompletesOnlyWhenAllHeard(nr: NullRound, idx: int, data: Bytes)
    requires Valid(nr)
    ensures Valid(ProcessData(nr, idx, data).round)
    ensures var r := ProcessData(nr, idx, data).round;
            r.msgs == |r.received| ==> r.heard == AllSlots(|r.received|)
  {
    var r := ProcessData(nr, idx, data).round;
    if 0 <= idx < |nr.received| && idx !in nr.heard {
      assert |nr.heard + {idx}| == |nr.heard| + 1;
    }
    if r.msgs == |r.received| {
      assert r.heard <= AllSlots(|r.received|);
      SubsetSameSize(r.heard, AllSlots(|r.received|));
    }
  }

  /** A block arriving for a slot. */
  datatype Arrival = Arrival(slot: int, data: Bytes)

  /** Arrivals processed in order, with everything pushed along the way. */
  function Run(nr: NullRound, arrivals: seq<Arrival>): (r: (NullRound, seq<Bytes>))
    decreases |arrivals|
  {
    if |arrivals| == 0 then (nr, [])
    else
      var s := ProcessData(nr, arrivals[0].slot, arrivals[0].data);
      var (last, pushed) := Run(s.round, arrivals[1..]);
      (last, s.pushed + pushed)
  }

  /** Arrivals for distinct slots not heard from yet, within the vector. */
  predicate Fresh(nr: NullRound, arrivals: seq<Arrival>)
  {
    && (forall i :: 0 <= i < |arrivals| ==>
          0 <= arrivals[i].slot < |nr.received| && arrivals[i].slot !in nr.heard)
    && (forall i, j :: 0 <= i < j < |arrivals| ==> arrivals[i].slot != arrivals[j].slot)
  }

  /**
   * One block per fresh slot fills exactly those slots; the pushed blocks
   * are, once the count is full, the non-empty slot contents in slot order,
   * whatever order the blocks arrived in, and nothing before that.
   */
  lemma {:induction false} RunFillsSlots(nr: NullRound, arrivals: seq<Arrival>)
    requires Valid(nr) && nr.msgs + |arrivals| <= |nr.received|
    requires Fresh(nr, arrivals)
    ensures var (last, pushed) := Run(nr, arrivals);
            && |last.received| == |nr.received|
            && last.msgs == nr.msgs + |arrivals|
            && (forall i :: 0 <= i < |arrivals| ==> last.received[arrivals[i].slot] == arrivals[i].data)
            && (forall k :: 0 <= k < |nr.received| && (forall i :: 0 <= i < |arrivals| ==> arrivals[i].slot != k)
                  ==> last.received[k] == nr.received[k])
            && pushed == (if |arrivals| > 0 && last.msgs == |nr.received| then NonEmpty(last.received) else [])
    decreases |arrivals|
  {
    if |arrivals| > 0 {
      var a := arrivals[0];
      var s := ProcessData(nr, a.slot, a.data);
      CompletesOnlyWhenAllHeard(nr, a.slot, a.data);
      var rest := arrivals[1..];
      assert Fresh(s.round, rest) by {
        forall i | 0 <= i < |rest|
          ensures 0 <= rest[i].slot < |s.round.received| && rest[i].slot !in s.round.heard
        {
          assert rest[i] == arrivals[i + 1];
        }
        forall i, j | 0 <= i < j < |rest| ensures rest[i].slot != rest[j].slot {
          assert rest[i] == arrivals[i + 1] && rest[j] == arrivals[j + 1];
        }
      }
      RunFillsSlots(s.round, rest);
      var (last, pushed) := Run(s.round, rest);
      forall i | 0 <= i < |arrivals| ensures last.received[arrivals[i].slot] == arrivals[i].data {
        if i > 0 {
          assert arrivals[i] == rest[i - 1];
        } else {
          forall j | 0 <= j < |rest| ensures rest[j].slot != a.slot {
            assert rest[j] == arrivals[j + 1];
          }
        }
      }
      forall k | 0 <= k < |nr.received| && (forall i :: 0 <= i < |arrivals| ==> arrivals[i].slot != k)
        ensures last.received[k] == nr.received[k]
      {
        assert a.slot != k;
        forall j | 0 <= j < |rest| ensures rest[j].slot != k {
          assert rest[j] == arrivals[j + 1];
        }
      }
      assert Run(nr, arrivals) == (last, s.pushed + pushed);
      if s.round.msgs == |nr.received| {
        assert |rest| == 0;
        assert s.pushed + [] == s.pushed;
      } else {
        assert s.pushed == [];
        assert s.pushed + pushed == pushed;
        if |rest| == 0 {
          assert last == s.round && pushed == [];
        }
      }
    }
  }

  /**
   * A round from its start: one block from every participant, in any
   * order, delivers the non-empty blocks in slot order, so clients' blocks
   * arrive in client order after the servers'.
   */
  lemma DeliversInSlotOrder(clients: R.Roster, servers: R.Roster, nonce: Bytes, arrivals: seq<Arrival>)
    requires var nr := New(clients, servers, nonce);
             |arrivals| == |nr.received| > 0 && Fresh(nr, arrivals)
    ensures var (last, pushed) := Run(New(clients, servers, nonce), arrivals);
            && |last.received| == |arrivals|
            && (forall i :: 0 <= i < |arrivals| ==> last.received[arrivals[i].slot] == arrivals[i].data)
            && pushed == NonEmpty(last.received)
            && last.base.successful && last.base.stopped
  {
    var nr := New(clients, servers, nonce);
    RunFillsSlots(nr, arrivals);
    RunCompletes(nr, arrivals);
  }

  /** A run that reaches the full count ends with a successful, stopped round. */
  lemma {:induction false} RunCompletes(nr: NullRound, arrivals: seq<Arrival>)
    requires Valid(nr) && |arrivals| > 0 && nr.msgs + |arrivals| == |nr.received|
    requires Fresh(nr, arrivals)
    ensures Run(nr, arrivals).0.base.successful && Run(nr, arrivals).0.base.stopped
    decreases |arrivals|
  {
    var a := arrivals[0];
    var s := ProcessData(nr, a.slot, a.data);
    CompletesOnlyWhenAllHeard(nr, a.slot, a.data);
    var rest := arrivals[1..];
    if |rest| > 0 {
      assert Fresh(s.round, rest) by {
        forall i | 0 <= i < |rest|
          ensures 0 <= rest[i].slot < |s.round.received| && rest[i].slot !in s.round.heard
        {
          assert rest[i] == arrivals[i + 1];
        }
        forall i, j | 0 <= i < j < |rest| ensures rest[i].slot != rest[j].slot {
          assert rest[i] == arrivals[i + 1] && rest[j] == arrivals[j + 1];
        }
      }
      RunCompletes(s.round, rest);
    }
  }

  /** Every slot not heard from is still empty, as in a new round. */
  predicate Unfilled(nr: NullRound)
  {
    forall i :: 0 <= i < |nr.received| && i !in nr.heard ==> nr.received[i] == []
  }

  /** Arrivals processed in order by the code as written. */
  function RunAsWritten(nr: NullRound, arrivals: seq<Arrival>): (r: (NullRound, seq<Bytes>))
    decreases |arrivals|
  {
    if |arrivals| == 0 then (nr, [])
    else
      var s := ProcessDataAsWritten(nr, arrivals[0].slot, arrivals[0].data);
      var (last, pushed) := RunAsWritten(s.round, arrivals[1..]);
      (last, s.pushed + pushed)
  }

  /**
   * While every participant sends at most once, the code as written and
   * the corrected intake cannot be told apart: from a new round (or any
   * round whose unheard slots are empty) they reach the same round and
   * push the same blocks. RunFillsSlots, DeliversInSlotOrder and
   * RunCompletes therefore describe the code as written on such runs.
   */
  lemma {:induction false} AsWrittenMatchesCorrected(nr: NullRound, arrivals: seq<Arrival>)
    requires Unfilled(nr) && Fresh(nr, arrivals)
    ensures RunAsWritten(nr, arrivals) == Run(nr, arrivals)
    decreases |arrivals|
  {
    if |arrivals| > 0 {
      var a := arrivals[0];
      assert nr.received[a.slot] == [];
      var s := ProcessData(nr, a.slot, a.data);
      assert ProcessDataAsWritten(nr, a.slot, a.data) == s;
      var rest := arrivals[1..];
      assert Unfilled(s.round);
      assert Fresh(s.round, rest) by {
        forall i | 0 <= i < |rest|
          ensures 0 <= rest[i].slot < |s.round.received| && rest[i].slot !in s.round.heard
        {
          assert rest[i] == arrivals[i + 1];
        }
        forall i, j | 0 <= i < j < |rest| ensures rest[i].slot != rest[j].slot {
          assert rest[i] == arrivals[i + 1] && rest[j] == arrivals[j + 1];
        }
      }
      AsWrittenMatchesCorrected(s.round, rest);
    }
  }

  /**
   * IncomingData for a NullRound as the code is written: the shared intake
   * filter, then the sender's slot. `isServer` is the overlay's view of
   * the sender.
   */
  function IncomingData(nr: NullRound, isServer: Id -> bool, req: RD.Request): (s: Step)
    ensures RD.IncomingData(nr.base, req).Dropped? ==> s == Step(nr, [])
    ensures RD.IncomingData(nr.base, req).Forward? ==>
              var id := req.from.id;
              s == ProcessDataAsWritten(nr, Slot(nr, isServer(id), id), RD.DataField(req.data))
    ensures nr.base.stopped ==> s == Step(nr, [])
  {
    match RD.IncomingData(nr.base, req)
    case Dropped => Step(nr, [])
    case Forward(id, data) => ProcessDataAsWritten(nr, Slot(nr, isServer(id), id), data)
  }

  /** The same intake in front of the corrected ProcessData. */
  function IncomingDataCorrected(nr: NullRound, isServer: Id -> bool, req: RD.Request): (s: Step)
    ensures RD.IncomingData(nr.base, req).Dropped? ==> s == Step(nr, [])
    ensures RD.IncomingData(nr.base, req).Forward? ==>
              var id := req.from.id;
              s == ProcessData(nr, Slot(nr, isServer(id), id), RD.DataField(req.data))
    ensures nr.base.stopped ==> s == Step(nr, [])
  {
    match RD.IncomingData(nr.base, req)
    case Dropped => Step(nr, [])
    case Forward(id, data) => ProcessData(nr, Slot(nr, isServer(id), id), data)
  }

  /** The block a participant broadcasts when the round starts. */
  const StartBudget: int := 1024

  /** The "SessionData" hash: the block under "data" and the round nonce under "nonce". */
  function SessionData(data: Bytes, nonce: Bytes): (v: RD.Variant)
    ensures RD.DataField(v) == data
  {
    RD.VHash(map["data" := RD.VBytes(data), "nonce" := RD.VBytes(nonce)])
  }

  /**
   * OnStart: the round starts and broadcasts at most 1024 bytes drawn from
   * the send queue, which records what it handed out.
   */
  function OnStart(nr: NullRound, queue: DQ.DataQueue): (r: (NullRound, DQ.DataQueue, RD.Variant))
    ensures r.0 == nr.(base := RD.Start(nr.base))
    ensures |RD.DataField(r.2)| <= StartBudget
    ensures (RD.DataField(r.2), r.1) == (DQ.GetData(queue, StartBudget).0.data, DQ.GetData(queue, StartBudget).1)
  {
    var (batch, queue') := DQ.GetData(queue, StartBudget);
    (nr.(base := RD.Start(nr.base)), queue', SessionData(batch.data, nr.base.nonce))
  }

  /**
   * What one participant broadcasts on start reaches every running round
   * it is a member of as exactly its batch, in its own slot.
   */
  lemma OnStartDelivered(sender: NullRound, queue: DQ.DataQueue, receiver: NullRound,
                         isServer: Id -> bool, id: Id)
    requires !receiver.base.stopped && RD.Member(receiver.base, id)
    ensures var (_, _, hash) := OnStart(sender, queue);
            IncomingData(receiver, isServer, RD.Request(RD.OverlaySender(id), hash))
              == ProcessDataAsWritten(receiver, Slot(receiver, isServer(id), id), DQ.GetData(queue, StartBudget).0.data)
  {
  }
}
