/**
 * Session::DataQueue (and its twin SessionSharedState::DataQueue): the
 * send queue a round draws its cleartext from. GetData packs whole queued
 * messages into a byte budget and remembers how many it consumed; the next
 * GetData trims those away, unless UnGet rewound the queue because the
 * round that took them failed.
 */
module DataQueue {
  import opened Common

  /** The queued messages and the number consumed by the last GetData. */
  datatype DataQueue = DataQueue(queue: seq<Bytes>, trim: int)

  /** GetData's answer: the packed bytes and whether queued data remains. */
  datatype Batch = Batch(data: Bytes, more: bool)

  function New(): (q: DataQueue)
    ensures q.queue == [] && q.trim == 0
  {
    DataQueue([], 0)
  }

  /** AddData: the message goes to the end; nothing queued moves. */
  function AddData(q: DataQueue, data: Bytes): (r: DataQueue)
    ensures |r.queue| == |q.queue| + 1
    ensures r.queue[..|q.queue|] == q.queue && r.queue[|q.queue|..] == [data]
    ensures r.trim == q.trim
  {
    DataQueue(q.queue + [data], q.trim)
  }

  /** UnGet: rewinds so the next GetData offers the same messages again. */
  function UnGet(q: DataQueue): (r: DataQueue)
    ensures r.queue == q.queue && r.trim == 0
    ensures Start(r) == q.queue
  {
    q.(trim := 0)
  }

  /** QList::mid(pos) for pos > 0: the elements from pos on, none past the end. */
  function Mid(s: seq<Bytes>, pos: nat): (r: seq<Bytes>)
    ensures pos <= |s| ==> r == s[pos..]
    ensures pos > |s| ==> r == []
  {
    if pos <= |s| then s[pos..] else []
  }

  /** The queue GetData packs from: the previous call's consumed prefix trimmed away. */
  function Start(q: DataQueue): (s: seq<Bytes>)
    ensures q.trim <= 0 ==> s == q.queue
    ensures 0 < q.trim <= |q.queue| ==> s == q.queue[q.trim..]
    ensures q.trim > |q.queue| ==> s == []
  {
    if q.trim > 0 then Mid(q.queue, q.trim) else q.queue
  }

  /** The messages of a list that fit the budget on their own, in order. */
  function Fitting(s: seq<Bytes>, max: int): (r: seq<Bytes>)
    ensures |r| <= |s|
    ensures forall i :: 0 <= i < |r| ==> |r[i]| <= max
    decreases |s|
  {
    if |s| == 0 then []
    else
      var last := s[|s| - 1];
      Fitting(s[..|s| - 1], max) + (if |last| <= max then [last] else [])
  }

  lemma {:induction false} FittingConcat(a: seq<Bytes>, b: seq<Bytes>, max: int)
    ensures Fitting(a + b, max) == Fitting(a, max) + Fitting(b, max)
    decreases |b|
  {
    if |b| == 0 {
      assert a + b == a;
    } else {
      var n := |b| - 1;
      assert (a + b)[..|a + b| - 1] == a + b[..n];
      FittingConcat(a, b[..n], max);
    }
  }

  /**
   * The packing loop from position idx with `data` packed so far: skip a
   * message larger than the whole budget, stop at the first one that no
   * longer fits beside what is packed, append the others.
   */
  function Pack(s: seq<Bytes>, max: int, idx: nat, data: Bytes): (r: (nat, Bytes))
    requires idx <= |s|
    requires data == Flatten(Fitting(s[..idx], max))
    requires |data| <= max || data == []
    ensures idx <= r.0 <= |s|
    ensures r.1 == Flatten(Fitting(s[..r.0], max))
    ensures |r.1| <= max || r.1 == []
    ensures r.0 < |s| ==> |s[r.0]| <= max && |r.1| + |s[r.0]| > max
    decreases |s| - idx
  {
    if idx == |s| then (idx, data)
    else
    assert s[..idx + 1][..idx] == s[..idx];
    assert Fitting(s[..idx + 1], max) ==
      Fitting(s[..idx], max) + (if |s[idx]| <= max then [s[idx]] else []);
    if max < |s[idx]| then
      assert Fitting(s[..idx], max) + [] == Fitting(s[..idx], max);
      Pack(s, max, idx + 1, data)
    else if max < |data| + |s[idx]| then (idx, data)
    else
      FlattenConcat(Fitting(s[..idx], max), [s[idx]]);
      assert Flatten([s[idx]]) == s[idx] + [];
      Pack(s, max, idx + 1, data + s[idx])
  }

  /**
   * GetData: trim what the previous call consumed, pack from the start, and
   * record the number of messages consumed, skipped oversize ones included.
   */
  function GetData(q: DataQueue, max: int): (r: (Batch, DataQueue))
    ensures var s := Start(q);
            var (batch, next) := r;
            && next.queue == s
            && 0 <= next.trim <= |s|
            && batch.data == Flatten(Fitting(s[..next.trim], max))
            && (max >= 0 ==> |batch.data| <= max)
            && (max < 0 ==> batch.data == [] && !batch.more)
            && (next.trim < |s| ==> |s[next.trim]| <= max && |batch.data| + |s[next.trim]| > max)
            && (batch.more <==> next.trim < |s|)
  {
    var s := Start(q);
    assert s[..0] == [];
    var (idx, data) := Pack(s, max, 0, []);
    (Batch(data, |s| != idx), DataQueue(s, idx))
  }

  /** Every message packed fits the budget alone; skipped ones are the oversize ones. */
  lemma {:induction false} FittingExcludesOversize(s: seq<Bytes>, max: int, i: nat)
    requires i < |s| && |s[i]| > max
    ensures Fitting(s, max) == Fitting(s[..i], max) + Fitting(s[i + 1..], max)
  {
    assert s == s[..i] + ([s[i]] + s[i + 1..]);
    FittingConcat(s[..i], [s[i]] + s[i + 1..], max);
    FittingConcat([s[i]], s[i + 1..], max);
    assert [s[i]][..0] == [];
  }

  /**
   * GetData, UnGet, GetData with nothing added in between yields the same
   * batch and the same queue both times: the failed round's data is offered
   * again unchanged.
   */
  lemma UnGetReoffers(q: DataQueue, max: int)
    ensures var (b1, q1) := GetData(q, max);
            var (b2, q2) := GetData(UnGet(q1), max);
            b1 == b2 && q1 == q2
  {
  }

  /**
   * A message larger than the budget among those consumed is not in the
   * batch, and the next GetData trims it away with the rest of the consumed
   * prefix, so it is never delivered.
   */
  lemma OversizeDropped(q: DataQueue, max: int, max2: int, i: nat)
    requires var s := Start(q); i < |s| && |s[i]| > max && i < GetData(q, max).1.trim
    ensures var s := Start(q);
            var (b1, q1) := GetData(q, max);
            && b1.data == Flatten(Fitting(s[..i], max)) + Flatten(Fitting(s[i + 1..q1.trim], max))
            && Start(q1) == s[q1.trim..]
  {
    var s := Start(q);
    var (b1, q1) := GetData(q, max);
    var p := s[..q1.trim];
    FittingExcludesOversize(p, max, i);
    assert p[..i] == s[..i] && p[i + 1..] == s[i + 1..q1.trim];
    FlattenConcat(Fitting(s[..i], max), Fitting(s[i + 1..q1.trim], max));
  }

  /** Messages added after a GetData come after everything still unconsumed. */
  lemma AddDataKeepsOrder(q: DataQueue, data: Bytes)
    requires 0 <= q.trim <= |q.queue|
    ensures Start(AddData(q, data)) == Start(q) + [data]
  {
    if q.trim > 0 {
      assert (q.queue + [data])[q.trim..] == q.queue[q.trim..] + [data];
    }
  }
}
