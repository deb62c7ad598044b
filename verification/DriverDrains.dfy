/** The workers and queues an identity update leaves to detached tasks.

    Each update hands one `Drain` over: workers of the old identity, which go on sending and are
    reported when they end, and the waiting queues of that moment. */
module DriverDrains {
  import opened Types
  import opened Bags
  import opened DriverState

  /** What the workers of the drains still hold. */
  ghost function Handed(drains: seq<Drain>): multiset<Entry> {
    if drains == [] then multiset{}
    else Handed(drains[..|drains| - 1]) + Bag(drains[|drains| - 1].workers, Carried)
  }

  /** What lies in the queues of the drains. */
  ghost function Discarded(drains: seq<Drain>): multiset<Entry> {
    if drains == [] then multiset{}
    else Discarded(drains[..|drains| - 1]) + Bag(drains[|drains| - 1].queues, Queued)
  }

  ghost function Away(drains: seq<Drain>): multiset<Entry> {
    Handed(drains) + Discarded(drains)
  }

  /** A drained worker holds only entries for its peer, and no queue was handed over with it; the
      queues handed over are not empty. */
  ghost predicate DrainOk(d: Drain) {
    && (forall id :: id in d.workers ==>
          d.workers[id].peer !in d.queues && forall e :: e in Leftover(d.workers[id]) ==> e.tx.peer == d.workers[id].peer)
    && (forall p :: p in d.queues ==> d.queues[p] != [])
  }

  ghost predicate DrainsOk(drains: seq<Drain>) {
    forall k :: 0 <= k < |drains| ==> DrainOk(drains[k])
  }

  /** The queues handed over stay as they are. */
  ghost predicate QueuesStay(drains: seq<Drain>, drains': seq<Drain>) {
    |drains| <= |drains'| && forall k :: 0 <= k < |drains| ==> drains'[k].queues == drains[k].queues
  }

  lemma {:induction false} HandedSet(drains: seq<Drain>, k: nat, d: Drain)
    requires k < |drains|
    ensures Handed(drains[k := d]) + Bag(drains[k].workers, Carried) == Handed(drains) + Bag(d.workers, Carried)
    decreases |drains|
  {
    hide Bag;
    var n := |drains| - 1;
    if k < n {
      HandedSet(drains[..n], k, d);
      assert drains[k := d][..n] == drains[..n][k := d];
      Both(Handed(drains[..n][k := d]), Bag(drains[k].workers, Carried), Handed(drains[..n]), Bag(d.workers, Carried), Bag(drains[n].workers, Carried));
    } else {
      assert drains[k := d][..n] == drains[..n];
    }
  }

  lemma Both<T(!new)>(a: multiset<T>, b: multiset<T>, c: multiset<T>, d: multiset<T>, x: multiset<T>)
    requires a + b == c + d
    ensures a + x + b == c + x + d
  {
    forall e ensures (a + x + b)[e] == (c + x + d)[e] {
      assert (a + b)[e] == (c + d)[e];
    }
  }

  lemma {:induction false} DiscardedSet(drains: seq<Drain>, k: nat, d: Drain)
    requires k < |drains| && d.queues == drains[k].queues
    ensures Discarded(drains[k := d]) == Discarded(drains)
    decreases |drains|
  {
    hide Bag;
    var n := |drains| - 1;
    if k < n {
      DiscardedSet(drains[..n], k, d);
      assert drains[k := d][..n] == drains[..n][k := d];
    } else {
      assert drains[k := d][..n] == drains[..n];
    }
  }

  /** Nothing is discarded exactly if no drain was given a queue. */
  lemma {:induction false} DiscardedNone(drains: seq<Drain>)
    requires DrainsOk(drains)
    ensures Discarded(drains) == multiset{} <==> forall k :: 0 <= k < |drains| ==> drains[k].queues == map[]
    decreases |drains|
  {
    if drains != [] {
      var n := |drains| - 1;
      DiscardedNone(drains[..n]);
      var queues := drains[n].queues;
      assert DrainOk(drains[n]);
      if queues != map[] {
        var p :| p in queues;
        BagSplit(queues, p, Queued);
        assert queues[p][0] in Queued(queues[p]);
        assert queues[p][0] in Bag(queues, Queued);
        assert queues[p][0] in Discarded(drains);
      } else {
        assert Discarded(drains) == Discarded(drains[..n]);
      }
    }
  }

  lemma AwayPush(drains: seq<Drain>, d: Drain)
    ensures Away(drains + [d]) == Away(drains) + Bag(d.workers, Carried) + Bag(d.queues, Queued)
    ensures Handed(drains + [d]) == Handed(drains) + Bag(d.workers, Carried)
    ensures Discarded(drains + [d]) == Discarded(drains) + Bag(d.queues, Queued)
  {
    hide Bag;
    assert (drains + [d])[..|drains|] == drains;
  }

  /** Exchanging one drained worker exchanges what it holds. */
  lemma SetDrainedHolds(s: State, k: nat, id: TaskId, w: Worker, gained: multiset<Entry>, lost: multiset<Entry>)
    requires k < |s.drains| && id in s.drains[k].workers
    requires Carried(w) + lost == Carried(s.drains[k].workers[id]) + gained
    ensures Handed(SetDrained(s, k, id, w).drains) + lost == Handed(s.drains) + gained
    ensures Discarded(SetDrained(s, k, id, w).drains) == Discarded(s.drains)
    ensures QueuesStay(s.drains, SetDrained(s, k, id, w).drains)
  {
    hide Carried;
    var d := s.drains[k];
    var d' := d.(workers := d.workers[id := w]);
    HandedSet(s.drains, k, d');
    DiscardedSet(s.drains, k, d');
    BagSet(d.workers, id, w, Carried);
    Exchange(Handed(s.drains[k := d']), Handed(s.drains), Carried(w), Carried(d.workers[id]), Bag(d.workers - {id}, Carried), gained, lost);
  }

  lemma Exchange<T(!new)>(h': multiset<T>, h: multiset<T>, w': multiset<T>, w: multiset<T>, rest: multiset<T>, gained: multiset<T>, lost: multiset<T>)
    requires h' + (w + rest) == h + (w' + rest) && w' + lost == w + gained
    ensures h' + lost == h + gained
  {
    forall e ensures (h' + lost)[e] == (h + gained)[e] {
      assert (h' + (w + rest))[e] == (h + (w' + rest))[e] && (w' + lost)[e] == (w + gained)[e];
    }
  }

  lemma SetDrainedOk(s: State, k: nat, id: TaskId, w: Worker)
    requires DrainsOk(s.drains) && k < |s.drains| && id in s.drains[k].workers && w.peer == s.drains[k].workers[id].peer
    requires forall e :: e in Leftover(w) ==> e.tx.peer == w.peer
    ensures DrainsOk(SetDrained(s, k, id, w).drains)
  {
    hide Leftover;
    assert DrainOk(s.drains[k]);
    assert DrainOk(SetDrained(s, k, id, w).drains[k]);
  }

  /** No queue was handed over with a drained worker: what it leaves is all that is reported. */
  lemma DrainFinishIs(s: State, k: nat, id: TaskId)
    requires DrainsOk(s.drains) && k < |s.drains| && id in s.drains[k].workers
    ensures var d := s.drains[k];
            var w := d.workers[id];
            DrainFinish(s, k, id) == s.(drains := s.drains[k := Drain(d.workers - {id}, d.queues)],
                                        responses := s.responses + [TxDrop(w.peer, DriverIdentityChanged, Leftover(w))])
  {
    hide Leftover;
    var d := s.drains[k];
    var w := d.workers[id];
    assert DrainOk(d);
    assert d.queues - {w.peer} == d.queues;
    assert [] + Leftover(w) == Leftover(w);
  }

  /** A drained worker that ends takes what it held out of the drain, and no queue with it. */
  lemma {:induction false} DrainFinishHolds(s: State, k: nat, id: TaskId)
    requires DrainsOk(s.drains) && k < |s.drains| && id in s.drains[k].workers
    ensures var t, w := DrainFinish(s, k, id), s.drains[k].workers[id];
            && Handed(t.drains) + Carried(w) == Handed(s.drains)
            && Discarded(t.drains) == Discarded(s.drains)
            && DrainsOk(t.drains) && QueuesStay(s.drains, t.drains)
  {
    hide Leftover, DrainFinish, Carried, Handed, Discarded;
    var d := s.drains[k];
    var w := d.workers[id];
    var d' := Drain(d.workers - {id}, d.queues);
    DrainFinishIs(s, k, id);
    assert DrainOk(d);
    assert DrainOk(d');
    HandedSet(s.drains, k, d');
    DiscardedSet(s.drains, k, d');
    BagSplit(d.workers, id, Carried);
    Exchange(Handed(s.drains[k := d']), Handed(s.drains), multiset{}, Carried(w), Bag(d.workers - {id}, Carried), multiset{}, Carried(w));
  }
}
