/** Commitment levels and the block metadata that carries them. */
module Commitment {

  datatype CommitmentLevel = Processed | Confirmed | Finalized {
    function Rank(): nat {
      match this
      case Processed => 0
      case Confirmed => 1
      case Finalized => 2
    }
  }

  datatype Hash = Hash(id: nat)

  datatype BlockMeta = BlockMeta(slot: nat, height: nat, hash: Hash, commitment: CommitmentLevel)

  /** How long, in blocks, a finalized entry is kept. */
  const MAX_RECENT_BLOCKHASHES := 300

  /** A finalized entry is kept while its height is less than 300 blocks behind the last one. */
  predicate ShouldRetainFinalized(height: nat, finalizedHeight: nat) {
    height + MAX_RECENT_BLOCKHASHES > finalizedHeight
  }

  /** What both retain steps keep after a block was finalized: finalized entries by height, all
      others by slot. */
  predicate Retains(meta: BlockMeta, finalizedHeight: nat, finalizedSlot: nat) {
    if meta.commitment.Finalized? then ShouldRetainFinalized(meta.height, finalizedHeight)
    else meta.slot > finalizedSlot
  }

  /** All heights lie in the window of the last 300 heights up to `top`. */
  ghost predicate InWindow<K>(heights: map<K, nat>, top: nat) {
    forall k :: k in heights ==> heights[k] <= top && ShouldRetainFinalized(heights[k], top)
  }

  ghost predicate DistinctHeights<K>(heights: map<K, nat>) {
    forall j, k :: j in heights && k in heights && heights[j] == heights[k] ==> j == k
  }

  /** Pigeonhole: entries of different heights in the window are at most 300. */
  lemma AtMostRecent<K>(heights: map<K, nat>, top: nat)
    requires InWindow(heights, top) && DistinctHeights(heights)
    ensures |heights| <= MAX_RECENT_BLOCKHASHES
  {
    var low := if top >= MAX_RECENT_BLOCKHASHES then top - MAX_RECENT_BLOCKHASHES + 1 else 0;
    Pigeonhole(heights, low, top + 1);
  }

  lemma {:induction false} Pigeonhole<K>(heights: map<K, nat>, low: nat, high: nat)
    requires low <= high && DistinctHeights(heights)
    requires forall k :: k in heights ==> low <= heights[k] < high
    ensures |heights| <= high - low
    decreases high - low
  {
    if low == high {
      assert heights == map[];
    } else if k :| k in heights && heights[k] == high - 1 {
      var rest := heights - {k};
      assert rest.Keys == heights.Keys - {k};
      Pigeonhole(rest, low, high - 1);
    } else {
      Pigeonhole(heights, low, high - 1);
    }
  }
}
