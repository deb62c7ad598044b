/** A set of members sorted by stake: a map from member to stake and a map from stake to members. */
module StakedSorted {
  import opened Types
  import opened Collections

  ghost predicate Inverse<V>(stakes: map<V, nat>, sorted: map<nat, set<V>>) {
    && (forall v :: v in stakes ==> stakes[v] in sorted && v in sorted[stakes[v]])
    && (forall s :: s in sorted ==> sorted[s] != {})
    && (forall s, v :: s in sorted && v in sorted[s] ==> v in stakes && stakes[v] == s)
  }

  /** `order` lists every member of `stakes` exactly once, in ascending order of stake. */
  ghost predicate AscendingListing<V(!new)>(order: seq<V>, stakes: map<V, nat>) {
    && NoDuplicates(order)
    && (forall v :: v in order <==> v in stakes)
    && (forall i, j :: 0 <= i < j < |order| ==> order[i] in stakes && order[j] in stakes && stakes[order[i]] <= stakes[order[j]])
  }

  class StakedSortedSet<V(==,!new)> {
    var peerStakeMap: map<V, nat>
    var sortedMap: map<nat, set<V>>

    ghost predicate Valid()
      reads this
    {
      Inverse(peerStakeMap, sortedMap)
    }

    constructor ()
      ensures Valid() && peerStakeMap == map[]
    {
      peerStakeMap, sortedMap := map[], map[];
    }

    method Clear()
      modifies this
      ensures Valid() && peerStakeMap == map[]
    {
      peerStakeMap, sortedMap := map[], map[];
    }

    method Remove(peer: V) returns (present: bool)
      requires Valid()
      modifies this
      ensures Valid()
      ensures present == (peer in old(peerStakeMap))
      ensures peerStakeMap == old(peerStakeMap) - {peer}
    {
      if peer !in peerStakeMap {
        return false;
      }
      var oldStake := peerStakeMap[peer];
      peerStakeMap := peerStakeMap - {peer};
      var peers := sortedMap[oldStake] - {peer};
      if peers == {} {
        assert forall v :: v in sortedMap[oldStake] && v != peer ==> v in peers;
        sortedMap := sortedMap - {oldStake};
      } else {
        sortedMap := sortedMap[oldStake := peers];
      }
      present := true;
    }

    method Insert(peer: V, stake: nat) returns (alreadyPresent: bool)
      requires Valid()
      modifies this
      ensures Valid()
      ensures alreadyPresent == (peer in old(peerStakeMap))
      ensures peerStakeMap == old(peerStakeMap)[peer := stake]
    {
      alreadyPresent := Remove(peer);
      peerStakeMap := peerStakeMap[peer := stake];
      sortedMap := sortedMap[stake := (if stake in sortedMap then sortedMap[stake] else {}) + {peer}];
    }

    method Get(peer: V) returns (r: Option<nat>)
      ensures r == if peer in peerStakeMap then Some(peerStakeMap[peer]) else None
    {
      r := if peer in peerStakeMap then Some(peerStakeMap[peer]) else None;
    }

    /** Walks the buckets in ascending order of stake; the order within a bucket is arbitrary. */
    method Iter() returns (order: seq<V>)
      requires Valid()
      ensures AscendingListing(order, peerStakeMap)
    {
      order := [];
      var rest := sortedMap;
      assert forall v :: v in peerStakeMap ==> peerStakeMap[v] in rest.Keys;
      while rest != map[]
        invariant rest.Keys <= sortedMap.Keys && forall s :: s in rest ==> rest[s] == sortedMap[s]
        invariant ListingBelow(order, peerStakeMap, rest.Keys)
        invariant unchanged(this)
        decreases rest.Keys
      {
        var stake := LeastKey(rest);
        var bucket := ListSet(rest[stake]);
        assert (rest - {stake}).Keys == rest.Keys - {stake};
        BucketMembers(peerStakeMap, sortedMap, stake);
        ExtendListing(order, peerStakeMap, rest.Keys, stake, bucket);
        order := order + bucket;
        rest := rest - {stake};
      }
    }
  }

  /** `order` lists, ascending, the members whose stake is not among `rest`, and those have
      no more stake than any of `rest`. */
  ghost predicate ListingBelow<V(!new)>(order: seq<V>, stakes: map<V, nat>, rest: set<nat>) {
    && NoDuplicates(order)
    && (forall v :: v in order <==> v in stakes && stakes[v] !in rest)
    && (forall i, j :: 0 <= i < j < |order| ==> order[i] in stakes && order[j] in stakes && stakes[order[i]] <= stakes[order[j]])
    && (forall v, s :: v in order && s in rest ==> stakes[v] <= s)
  }

  lemma BucketMembers<V(!new)>(stakes: map<V, nat>, sorted: map<nat, set<V>>, stake: nat)
    requires Inverse(stakes, sorted) && stake in sorted
    ensures forall v :: v in sorted[stake] <==> v in stakes && stakes[v] == stake
  {
  }

  lemma ExtendListing<V(!new)>(order: seq<V>, stakes: map<V, nat>, rest: set<nat>, stake: nat, bucket: seq<V>)
    requires ListingBelow(order, stakes, rest)
    requires stake in rest && forall u :: u in rest ==> stake <= u
    requires NoDuplicates(bucket) && forall v :: v in bucket <==> v in stakes && stakes[v] == stake
    ensures ListingBelow(order + bucket, stakes, rest - {stake})
  {
    var all := order + bucket;
    assert forall i :: |order| <= i < |all| ==> all[i] == bucket[i - |order|] && all[i] in bucket;
    assert forall i :: 0 <= i < |order| ==> all[i] == order[i] && all[i] in order;
    forall v ensures v in all <==> v in stakes && stakes[v] !in rest - {stake} {
    }
  }
}
