/** Sums over finite maps: the total stake of a group of peers and the bag of all queued entries. */
module Bags {
  import opened Types

  ghost function TotalStake(peers: map<Pubkey, nat>): nat {
    if peers == map[] then 0
    else var p :| p in peers; peers[p] + TotalStake(peers - {p})
  }

  lemma {:induction false} StakeSplit(peers: map<Pubkey, nat>, p: Pubkey)
    requires p in peers
    ensures TotalStake(peers) == peers[p] + TotalStake(peers - {p})
    decreases |peers|
  {
    var q :| q in peers && TotalStake(peers) == peers[q] + TotalStake(peers - {q});
    if q != p {
      assert |peers - {q}| < |peers| && |peers - {p}| < |peers| by {
        assert (peers - {q}).Keys == peers.Keys - {q} && (peers - {p}).Keys == peers.Keys - {p};
      }
      StakeSplit(peers - {q}, p);
      StakeSplit(peers - {p}, q);
      assert peers - {p} - {q} == peers - {q} - {p};
    }
  }

  ghost function Bag<K, V>(m: map<K, V>, entries: V -> multiset<Entry>): multiset<Entry> {
    if m == map[] then multiset{}
    else var k :| k in m; entries(m[k]) + Bag(m - {k}, entries)
  }

  lemma {:induction false} BagSplit<K, V>(m: map<K, V>, k: K, entries: V -> multiset<Entry>)
    requires k in m
    ensures Bag(m, entries) == entries(m[k]) + Bag(m - {k}, entries)
    decreases |m|
  {
    var j :| j in m && Bag(m, entries) == entries(m[j]) + Bag(m - {j}, entries);
    if j != k {
      assert |m - {j}| < |m| && |m - {k}| < |m| by {
        assert (m - {j}).Keys == m.Keys - {j} && (m - {k}).Keys == m.Keys - {k};
      }
      BagSplit(m - {j}, k, entries);
      BagSplit(m - {k}, j, entries);
      assert m - {k} - {j} == m - {j} - {k};
    }
  }

  /** The bag of `m` with `k` set to `v`, against the bag without `k`. */
  lemma BagSet<K, V>(m: map<K, V>, k: K, v: V, entries: V -> multiset<Entry>)
    ensures Bag(m[k := v], entries) == entries(v) + Bag(m - {k}, entries)
    ensures k !in m ==> Bag(m - {k}, entries) == Bag(m, entries)
    ensures k in m ==> Bag(m, entries) == entries(m[k]) + Bag(m - {k}, entries)
  {
    BagSplit(m[k := v], k, entries);
    assert m[k := v] - {k} == m - {k};
    if k in m {
      BagSplit(m, k, entries);
    } else {
      assert m - {k} == m;
    }
  }

  // Multiset arithmetic, stated once so that larger proofs need not search for it.

  lemma Cancel<T(!new)>(a: multiset<T>, b: multiset<T>, x: multiset<T>, gained: multiset<T>, lost: multiset<T>, y: multiset<T>)
    requires a + x == b + y && y + lost == x + gained
    ensures a + lost == b + gained
  {
    forall e ensures (a + lost)[e] == (b + gained)[e] {
      assert (a + x)[e] == (b + y)[e] && (y + lost)[e] == (x + gained)[e];
    }
  }

  lemma Swap<T>(a: multiset<T>, b: multiset<T>, c: multiset<T>)
    ensures a + (b + c) == (b + a) + c
  {
  }

  /** A total of held, reported and other entries after `gone` went from held to reported. */
  lemma Balance<T(!new)>(h': multiset<T>, h: multiset<T>, r': multiset<T>, r: multiset<T>, d: multiset<T>, gone: multiset<T>, added: multiset<T>)
    requires h' + gone == h + added && r' == r + gone
    ensures h' + r' + d == h + r + d + added
  {
    forall e ensures (h' + r' + d)[e] == (h + r + d + added)[e] {
      assert (h' + gone)[e] == (h + added)[e];
    }
  }

  /** Replacing `x` by `y` in one part of a total replaces it in the total. */
  lemma Shift<T(!new)>(h': multiset<T>, h: multiset<T>, r: multiset<T>, d: multiset<T>, x: multiset<T>, y: multiset<T>)
    requires h' + x == h + y
    ensures h' + r + d + x == h + r + d + y
  {
    forall e ensures (h' + r + d + x)[e] == (h + r + d + y)[e] {
      assert (h' + x)[e] == (h + y)[e];
    }
  }
}
