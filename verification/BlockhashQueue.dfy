/** Block metadata by blockhash, pruned when a block is finalized. */
module BlockhashQueues {
  import opened Types
  import opened Commitment

  function Retained(metas: map<Hash, BlockMeta>, height: nat, slot: nat): map<Hash, BlockMeta> {
    map h | h in metas && Retains(metas[h], height, slot) :: metas[h]
  }

  function Received(metas: map<Hash, BlockMeta>, meta: BlockMeta): map<Hash, BlockMeta> {
    var updated := metas[meta.hash := meta];
    if meta.commitment.Finalized? then Retained(updated, meta.height, meta.slot) else updated
  }

  function ReceivedAll(metas: seq<BlockMeta>): map<Hash, BlockMeta> {
    if metas == [] then map[] else Received(ReceivedAll(metas[..|metas| - 1]), metas[|metas| - 1])
  }

  ghost function FinalizedHeights(metas: map<Hash, BlockMeta>): map<Hash, nat> {
    map h | h in metas && metas[h].commitment.Finalized? :: metas[h].height
  }

  ghost predicate FinalizedInOrder(metas: seq<BlockMeta>) {
    forall i, j :: 0 <= i < j < |metas| && metas[i].commitment.Finalized? && metas[j].commitment.Finalized? ==> metas[i].height <= metas[j].height
  }

  ghost function LastFinalized(metas: seq<BlockMeta>): nat {
    if metas == [] then 0
    else if metas[|metas| - 1].commitment.Finalized? then metas[|metas| - 1].height
    else LastFinalized(metas[..|metas| - 1])
  }

  lemma {:induction false} LastIsEarlier(metas: seq<BlockMeta>, h: nat)
    requires forall i :: 0 <= i < |metas| && metas[i].commitment.Finalized? ==> metas[i].height <= h
    ensures LastFinalized(metas) <= h
    decreases |metas|
  {
    if metas != [] && !metas[|metas| - 1].commitment.Finalized? {
      LastIsEarlier(metas[..|metas| - 1], h);
    }
  }

  lemma {:induction false} FinalizedInWindow(metas: seq<BlockMeta>)
    requires FinalizedInOrder(metas)
    ensures InWindow(FinalizedHeights(ReceivedAll(metas)), LastFinalized(metas))
    decreases |metas|
  {
    if metas != [] {
      var n := |metas| - 1;
      assert forall i :: 0 <= i < n ==> metas[..n][i] == metas[i];
      FinalizedInWindow(metas[..n]);
      if metas[n].commitment.Finalized? {
        LastIsEarlier(metas[..n], metas[n].height);
      }
      ReceiveInWindow(ReceivedAll(metas[..n]), metas[n], LastFinalized(metas[..n]));
    }
  }

  lemma ReceiveInWindow(metas: map<Hash, BlockMeta>, meta: BlockMeta, top: nat)
    requires InWindow(FinalizedHeights(metas), top)
    ensures !meta.commitment.Finalized? ==> InWindow(FinalizedHeights(Received(metas, meta)), top)
    ensures meta.commitment.Finalized? && top <= meta.height ==> InWindow(FinalizedHeights(Received(metas, meta)), meta.height)
  {
    var before, after := FinalizedHeights(metas), FinalizedHeights(Received(metas, meta));
    forall h | h in after && h != meta.hash ensures h in before && after[h] == before[h] {
    }
  }

  /** When finalized heights never decrease and no two finalized blocks have the same height, at
      most 300 finalized blocks are kept at any time. */
  lemma FinalizedBlocksAreBounded(metas: seq<BlockMeta>)
    requires FinalizedInOrder(metas)
    requires DistinctHeights(FinalizedHeights(ReceivedAll(metas)))
    ensures |FinalizedHeights(ReceivedAll(metas))| <= MAX_RECENT_BLOCKHASHES
  {
    FinalizedInWindow(metas);
    AtMostRecent(FinalizedHeights(ReceivedAll(metas)), LastFinalized(metas));
  }

  /** A block just finalized is never pruned by its own arrival, and after it only blocks of
      greater slots are left that are not finalized. */
  lemma FinalizedArrival(metas: map<Hash, BlockMeta>, meta: BlockMeta, h: Hash)
    requires meta.commitment.Finalized?
    ensures var after := Received(metas, meta);
            && meta.hash in after && after[meta.hash] == meta
            && (h in after && !after[h].commitment.Finalized? ==> after[h].slot > meta.slot)
            && (h in metas && h != meta.hash ==> (h in after <==> Retains(metas[h], meta.height, meta.slot)))
  {
  }

  /** Block `i` of the received ones is the last one with its hash, and no block finalized after it
      pruned it. */
  ghost predicate Stays(metas: seq<BlockMeta>, i: nat, h: Hash) {
    && i < |metas| && metas[i].hash == h
    && forall j :: i < j < |metas| ==>
         metas[j].hash != h && (metas[j].commitment.Finalized? ==> Retains(metas[i], metas[j].height, metas[j].slot))
  }

  lemma StaysBefore(metas: seq<BlockMeta>, i: nat, h: Hash)
    requires i < |metas| - 1
    ensures var n := |metas| - 1;
            Stays(metas, i, h) <==> Stays(metas[..n], i, h) && metas[n].hash != h
                                    && (metas[n].commitment.Finalized? ==> Retains(metas[i], metas[n].height, metas[n].slot))
  {
    hide Retains;
    var n := |metas| - 1;
    assert forall j :: 0 <= j < n ==> metas[..n][j] == metas[j];
  }

  /** What a lookup finds after any sequence of received blocks: the last block with the hash,
      exactly as long as no block finalized after it pruned it. */
  lemma {:induction false} StoredExactly(metas: seq<BlockMeta>, h: Hash, meta: BlockMeta)
    ensures h in ReceivedAll(metas) && ReceivedAll(metas)[h] == meta <==> exists i: nat :: Stays(metas, i, h) && metas[i] == meta
    decreases |metas|
  {
    if metas != [] {
      hide Stays;
      var n := |metas| - 1;
      StoredExactly(metas[..n], h, meta);
      LastStays(metas, h);
      forall i: nat | i < n ensures metas[..n][i] == metas[i] {
        StaysBefore(metas, i, h);
      }
      StaysInside(metas, h);
      StaysInside(metas[..n], h);
    }
  }

  lemma LastStays(metas: seq<BlockMeta>, h: Hash)
    requires metas != []
    ensures Stays(metas, |metas| - 1, h) <==> metas[|metas| - 1].hash == h
  {
  }

  lemma StaysInside(metas: seq<BlockMeta>, h: Hash)
    ensures forall i: nat :: Stays(metas, i, h) ==> i < |metas| && metas[i].hash == h
  {
  }

  class BlockhashQueue {
    var blockmetaMap: map<Hash, BlockMeta>

    constructor ()
      ensures blockmetaMap == map[]
    {
      blockmetaMap := map[];
    }

    /** The insert and retain step for one received block. */
    method Receive(meta: BlockMeta)
      modifies this
      ensures blockmetaMap == Received(old(blockmetaMap), meta)
    {
      blockmetaMap := blockmetaMap[meta.hash := meta];
      if meta.commitment == Finalized {
        var rest := blockmetaMap.Keys;
        ghost var all := blockmetaMap;
        while rest != {}
          invariant rest <= all.Keys
          invariant forall h :: h in blockmetaMap <==> h in all && (h in rest || Retains(all[h], meta.height, meta.slot))
          invariant forall h :: h in blockmetaMap ==> blockmetaMap[h] == all[h]
          decreases |rest|
        {
          var h :| h in rest;
          if !Retains(blockmetaMap[h], meta.height, meta.slot) {
            blockmetaMap := blockmetaMap - {h};
          }
          rest := rest - {h};
        }
      }
    }

    method GetBlockHeight(hash: Hash) returns (r: Option<nat>)
      ensures r == if hash in blockmetaMap then Some(blockmetaMap[hash].height) else None
    {
      r := if hash in blockmetaMap then Some(blockmetaMap[hash].height) else None;
    }

    /** The greatest height among the blocks stored with exactly this commitment. */
    method GetBlockHeightLatest(commitment: CommitmentLevel) returns (r: Option<nat>)
      ensures r.None? <==> forall h :: h in blockmetaMap ==> blockmetaMap[h].commitment != commitment
      ensures r.Some? ==> exists h :: h in blockmetaMap && blockmetaMap[h].commitment == commitment && blockmetaMap[h].height == r.value
      ensures forall h :: h in blockmetaMap && blockmetaMap[h].commitment == commitment ==> r.Some? && blockmetaMap[h].height <= r.value
    {
      r := None;
      var rest := blockmetaMap.Keys;
      while rest != {}
        invariant rest <= blockmetaMap.Keys
        invariant r.Some? ==> exists h :: h in blockmetaMap && blockmetaMap[h].commitment == commitment && blockmetaMap[h].height == r.value
        invariant forall h :: h in blockmetaMap && h !in rest && blockmetaMap[h].commitment == commitment ==> r.Some? && blockmetaMap[h].height <= r.value
        decreases |rest|
      {
        var h :| h in rest;
        var meta := blockmetaMap[h];
        if meta.commitment == commitment && (r.None? || meta.height > r.value) {
          r := Some(meta.height);
        }
        rest := rest - {h};
      }
    }
  }
}
