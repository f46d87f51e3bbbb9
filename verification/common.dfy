/**
 * Shared vocabulary of the Dissent session model: bytes, peer ids, an
 * optional value, and the ascending-key iteration order of a Qt QMap.
 */
module Common {

  /** One octet of a QByteArray. */
  newtype byte = b: int | 0 <= b < 256

  /** A QByteArray. */
  type Bytes = seq<byte>

  /**
   * A Connections::Id. Only equality and the total order QMap sorts by
   * are used, so a natural number stands for it.
   */
  type Id = nat

  datatype Option<+T> = None | Some(value: T)

  /** QByteArray(n, 0): n zero bytes. */
  function Zeros(n: nat): (r: Bytes)
    ensures |r| == n
    ensures forall i :: 0 <= i < n ==> r[i] == 0
  {
    seq(n, _ => 0)
  }

  /** The concatenation of a list of byte arrays, in list order. */
  function Flatten(parts: seq<Bytes>): Bytes
  {
    if |parts| == 0 then [] else parts[0] + Flatten(parts[1..])
  }

  lemma {:induction false} FlattenLength(parts: seq<Bytes>)
    ensures |Flatten(parts)| == SumLengths(parts)
  {
    if |parts| > 0 {
      FlattenLength(parts[1..]);
    }
  }

  /** Flattening distributes over concatenation of the part lists. */
  lemma {:induction false} FlattenConcat(a: seq<Bytes>, b: seq<Bytes>)
    ensures Flatten(a + b) == Flatten(a) + Flatten(b)
  {
    if |a| > 0 {
      assert (a + b)[1..] == a[1..] + b;
      FlattenConcat(a[1..], b);
    } else {
      assert a + b == b;
    }
  }

  /** Sum of the lengths of a list of byte arrays. */
  function SumLengths(parts: seq<Bytes>): nat
  {
    if |parts| == 0 then 0 else |parts[0]| + SumLengths(parts[1..])
  }

  /** The set of ids listed in a sequence. */
  function Elems(ids: seq<Id>): set<Id>
  {
    set i | i in ids
  }

  /** A list of ids without repetitions, as a configured server list is. */
  predicate Distinct(ids: seq<Id>)
  {
    forall i, j :: 0 <= i < j < |ids| ==> ids[i] != ids[j]
  }

  lemma {:induction false} DistinctCard(ids: seq<Id>)
    requires Distinct(ids)
    ensures |Elems(ids)| == |ids|
  {
    if |ids| > 0 {
      var tail := ids[1..];
      assert Distinct(tail) by {
        forall i, j | 0 <= i < j < |tail| ensures tail[i] != tail[j] {
          assert tail[i] == ids[i + 1] && tail[j] == ids[j + 1];
        }
      }
      DistinctCard(tail);
      assert ids[0] !in Elems(tail) by {
        forall k | 0 <= k < |tail| ensures tail[k] != ids[0] {
          assert tail[k] == ids[k + 1];
        }
      }
      assert Elems(ids) == Elems(tail) + {ids[0]} by {
        assert ids == [ids[0]] + tail;
      }
    }
  }

  lemma SubsetCard<T>(a: set<T>, b: set<T>)
    requires a <= b
    ensures |a| <= |b|
    decreases a
  {
    if a != {} {
      var x :| x in a;
      SubsetCard(a - {x}, b - {x});
    }
  }

  /** A subset of a finite set with the same size is the whole set. */
  lemma SubsetSameSize<T>(a: set<T>, b: set<T>)
    requires a <= b && |a| == |b|
    ensures a == b
  {
    if a != b {
      var x :| x in b && x !in a;
      SubsetCard(a, b - {x});
    }
  }

  /** Ids from a list without repetitions, as many as the list is long, are all of it. */
  lemma FullSubset(keys: set<Id>, ids: seq<Id>)
    requires Distinct(ids)
    requires keys <= Elems(ids)
    requires |keys| == |ids|
    ensures keys == Elems(ids)
  {
    DistinctCard(ids);
    SubsetSameSize(keys, Elems(ids));
  }

  /** A list of ids in strictly ascending order. */
  predicate StrictlyAscending(ids: seq<Id>)
  {
    forall i, j :: 0 <= i < j < |ids| ==> ids[i] < ids[j]
  }

  /** Two strictly ascending lists of the same ids are the same list. */
  lemma {:induction false} AscendingUnique(a: seq<Id>, b: seq<Id>)
    requires StrictlyAscending(a) && StrictlyAscending(b)
    requires Elems(a) == Elems(b)
    ensures a == b
    decreases |a|
  {
    assert |a| > 0 ==> a[0] in Elems(b);
    assert |b| > 0 ==> b[0] in Elems(a);
    if |a| > 0 && |b| > 0 {
      AscendingHeads(a, b);
      AscendingTailSubset(a, b);
      AscendingTailSubset(b, a);
      AscendingUnique(a[1..], b[1..]);
      assert a == [a[0]] + a[1..] && b == [b[0]] + b[1..];
    }
  }

  /** Two strictly ascending lists of the same ids start with the same id. */
  lemma AscendingHeads(a: seq<Id>, b: seq<Id>)
    requires StrictlyAscending(a) && StrictlyAscending(b)
    requires Elems(a) == Elems(b) && |a| > 0 && |b| > 0
    ensures a[0] == b[0]
  {
    assert a[0] in Elems(b) && b[0] in Elems(a);
    var k :| 0 <= k < |b| && b[k] == a[0];
    var m :| 0 <= m < |a| && a[m] == b[0];
    assert a[0] <= a[m] && b[0] <= b[k];
  }

  /** Below a shared head, the rest of an ascending list lies in the rest of the other. */
  lemma AscendingTailSubset(a: seq<Id>, b: seq<Id>)
    requires StrictlyAscending(a)
    requires Elems(a) <= Elems(b) && |a| > 0 && |b| > 0 && a[0] == b[0]
    ensures Elems(a[1..]) <= Elems(b[1..])
  {
    forall x | x in Elems(a[1..]) ensures x in Elems(b[1..]) {
      var i :| 0 <= i < |a| - 1 && a[1..][i] == x;
      assert a[i + 1] == x && a[0] < x;
      assert x in Elems(b);
      var j :| 0 <= j < |b| && b[j] == x;
      assert j != 0 && b[1..][j - 1] == x;
    }
  }

  lemma MinExists(s: set<Id>)
    requires s != {}
    ensures exists m :: m in s && forall x :: x in s ==> m <= x
  {
    var y :| y in s;
    var t := s - {y};
    if t == {} {
      forall x | x in s ensures y <= x {
        assert x !in t;
      }
      assert y in s && forall x :: x in s ==> y <= x;
    } else {
      MinExists(t);
      var m :| m in t && forall x :: x in t ==> m <= x;
      var least := if y < m then y else m;
      forall x | x in s ensures least <= x {
        if x != y { assert x in t; }
      }
      assert least in s && forall x :: x in s ==> least <= x;
    }
  }

  /** The least element of a non-empty finite set of ids. */
  function Min(s: set<Id>): (m: Id)
    requires s != {}
    ensures m in s && forall x :: x in s ==> m <= x
  {
    MinExists(s);
    var m :| m in s && forall x :: x in s ==> m <= x; m
  }

  /** The elements of a finite set of ids in ascending order. */
  function Ascending(s: set<Id>): (r: seq<Id>)
    ensures |r| == |s|
    ensures forall i :: 0 <= i < |r| ==> r[i] in s
    ensures forall k :: k in s ==> k in r
    ensures forall i, j :: 0 <= i < j < |r| ==> r[i] < r[j]
    decreases |s|
  {
    if s == {} then []
    else
      var k := Min(s);
      var rest := Ascending(s - {k});
      AscendingCons(s, k, rest);
      [k] + rest
  }

  /** Putting the least element in front of the ascending rest keeps it ascending. */
  lemma AscendingCons(s: set<Id>, k: Id, rest: seq<Id>)
    requires k in s && forall x :: x in s ==> k <= x
    requires |rest| == |s - {k}|
    requires forall i :: 0 <= i < |rest| ==> rest[i] in s - {k}
    requires forall x :: x in s - {k} ==> x in rest
    requires forall i, j :: 0 <= i < j < |rest| ==> rest[i] < rest[j]
    ensures var r := [k] + rest;
            && |r| == |s|
            && (forall i :: 0 <= i < |r| ==> r[i] in s)
            && (forall x :: x in s ==> x in r)
            && (forall i, j :: 0 <= i < j < |r| ==> r[i] < r[j])
  {
    var r := [k] + rest;
    forall i | 0 <= i < |r| ensures r[i] in s {
      if i > 0 { assert r[i] == rest[i - 1]; }
    }
    forall i, j | 0 <= i < j < |r| ensures r[i] < r[j] {
      assert r[j] == rest[j - 1];
      if i > 0 { assert r[i] == rest[i - 1]; }
    }
  }

  /**
   * The keys of a QMap in the order QMap iterates them: ascending, each key
   * exactly once.
   */
  function SortedKeys<V>(m: map<Id, V>): (r: seq<Id>)
    ensures |r| == |m.Keys|
    ensures forall i :: 0 <= i < |r| ==> r[i] in m
    ensures forall k :: k in m ==> k in r
    ensures forall i, j :: 0 <= i < j < |r| ==> r[i] < r[j]
  {
    Ascending(m.Keys)
  }

  /** QMap's key order lists exactly the keys, strictly ascending. */
  lemma SortedKeysOrder<V>(m: map<Id, V>)
    ensures Elems(SortedKeys(m)) == m.Keys
    ensures StrictlyAscending(SortedKeys(m))
  {
    var keys := SortedKeys(m);
    forall k | k in Elems(keys) ensures k in m {
      var i :| 0 <= i < |keys| && keys[i] == k;
    }
  }

  /** QMap::values(): the values in ascending key order. */
  function ValuesByKey<V>(m: map<Id, V>): (r: seq<V>)
    ensures |r| == |m.Keys|
    ensures forall i :: 0 <= i < |r| ==> r[i] == m[SortedKeys(m)[i]]
  {
    var ks := SortedKeys(m);
    seq(|ks|, i requires 0 <= i < |ks| => m[ks[i]])
  }
}
