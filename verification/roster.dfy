/**
 * Identity::Roster: the members of a group in order, with an id-to-position
 * index built when the roster is constructed.
 */
module Roster {
  import opened Common

  /** A member's id, public signing key and optional data (such as a DH key). */
  datatype PublicIdentity = PublicIdentity(id: Id, key: Bytes, optional: Bytes)

  datatype Roster = Roster(members: seq<PublicIdentity>)

  /** Some member of the list carries this id. */
  predicate Listed(members: seq<PublicIdentity>, id: Id)
  {
    exists i :: 0 <= i < |members| && members[i].id == id
  }

  /** Position i holds the id, and no later position does. */
  predicate LastAt(members: seq<PublicIdentity>, id: Id, i: int)
  {
    && 0 <= i < |members|
    && members[i].id == id
    && forall j :: i < j < |members| ==> members[j].id != id
  }

  /**
   * The constructor's index: each member's id is mapped to its position in
   * turn, so for an id listed twice the later position overwrites.
   */
  function Index(members: seq<PublicIdentity>): (m: map<Id, int>)
    ensures forall id :: id in m <==> Listed(members, id)
    ensures forall id :: id in m ==> LastAt(members, id, m[id])
    decreases |members|
  {
    if |members| == 0 then map[]
    else
      var n := |members| - 1;
      var prefix := members[..n];
      var before := Index(prefix);
      var m := before[members[n].id := n];
      assert forall i :: 0 <= i < n ==> prefix[i] == members[i];
      m
  }

  /** The number of members; a roster with no members lists no id at all. */
  function Count(r: Roster): (n: nat)
    ensures n == |r.members|
    ensures n == 0 <==> forall id :: !Listed(r.members, id)
  {
    assert |r.members| > 0 ==> Listed(r.members, r.members[0].id);
    |r.members|
  }

  function Contains(r: Roster, id: Id): (b: bool)
    ensures b <==> Listed(r.members, id)
  {
    id in Index(r.members)
  }

  /** The position of an id, or -1 when it is not in the roster. */
  function GetIndex(r: Roster, id: Id): (i: int)
    ensures i == -1 <==> !Listed(r.members, id)
    ensures i != -1 ==> LastAt(r.members, id, i)
  {
    if !Contains(r, id) then -1 else Index(r.members)[id]
  }

  /** The key of an id, or none when it is not in the roster. */
  function GetKey(r: Roster, id: Id): (k: Option<Bytes>)
    ensures k.None? <==> !Listed(r.members, id)
    ensures k.Some? ==> exists i :: LastAt(r.members, id, i) && k.value == r.members[i].key
  {
    var index := GetIndex(r, id);
    if index == -1 then None else Some(r.members[index].key)
  }

  /** Ids listed without repetition. */
  predicate DistinctIds(members: seq<PublicIdentity>)
  {
    forall i, j :: 0 <= i < j < |members| ==> members[i].id != members[j].id
  }

  /**
   * With distinct ids, GetIndex inverts indexing: the member at position i
   * is found at position i, and its key is the key stored there.
   */
  lemma IndexOfMember(r: Roster, i: int)
    requires DistinctIds(r.members) && 0 <= i < |r.members|
    ensures GetIndex(r, r.members[i].id) == i
    ensures GetKey(r, r.members[i].id) == Some(r.members[i].key)
  {
  }
}
