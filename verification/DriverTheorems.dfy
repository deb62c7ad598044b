/** What holds in every state a run of the driver can reach, in the driver's own terms.

    A run starts without workers and connections and interleaves, in any order, arriving
    transactions, finished connection attempts, finished workers, eviction rounds with any plan,
    predictions, address changes, orphan sweeps, identity updates and steps of the workers, those
    of an old identity included. */
module DriverTheorems {
  import opened Types
  import opened Bags
  import opened DriverState
  import opened DriverInvariant
  import opened DriverSteps
  import opened DriverClosing
  import opened DriverLoops
  import opened DriverDrains
  import opened DriverLedger
  import opened DriverRuns
  import opened DriverPending

  /** A configuration asks for at least one send attempt. */
  ghost predicate At(c: Config, s: State) {
    c.maxSendAttempts >= 1 && Reachable(c, s)
  }

  // ---------------------------------------------------------------- workers and connections

  /** The driver has a worker of `p` over version `v` of the connection to `a` exactly if that
      connection is established in that version and lists `p`. */
  lemma WorkersMatchConnections(c: Config, s: State, p: Pubkey, a: SocketAddr, v: nat)
    requires At(c, s)
    ensures (p in s.workers && s.workers[p].addr == a && s.workers[p].version == v)
            <==> (a in s.conns && s.conns[a].version == v && p in s.conns[a].peers)
  {
    ReachableKeeps(c, s);
    if p in s.workers {
      assert Served(p, s.workers, s.conns);
    }
    if a in s.conns {
      assert Staffed(a, s.workers, s.conns);
    }
  }

  /** When a worker ends, its peer still has a handle, the handle names this task, and the
      connection at the handle's address has the handle's version. */
  lemma FinishedWorkerMatches(c: Config, s: State, id: TaskId)
    requires At(c, s) && id in s.tasks
    ensures var p := s.tasks[id].peer;
            && p in s.workers && s.workers[p].task == id && s.workers[p].addr == s.tasks[id].addr
            && s.workers[p].addr in s.conns && s.conns[s.workers[p].addr].version == s.workers[p].version
  {
    ReachableKeeps(c, s);
    TaskIsServed(c, s, id);
    assert OwnsTask(s.tasks[id].peer, s.workers, s.tasks);
  }

  /** No two peers share a worker task, and two connections never have the same version. */
  lemma TasksAndVersionsAreUnique(c: Config, s: State, p: Pubkey, q: Pubkey)
    requires At(c, s) && p in s.workers && q in s.workers
    ensures s.workers[p].task == s.workers[q].task ==> p == q
    ensures s.workers[p].version == s.workers[q].version ==> s.workers[p].addr == s.workers[q].addr
  {
    ReachableKeeps(c, s);
    assert OwnsTask(p, s.workers, s.tasks) && OwnsTask(q, s.workers, s.tasks);
    assert Served(p, s.workers, s.conns) && Served(q, s.workers, s.conns);
  }

  // ---------------------------------------------------------------- connection attempts

  /** The three indexes of connection attempts are inverse to each other, list no peer twice, and
      are disjoint from what is already connected. An attempt carries the current identity and
      never more than the allowed attempt number. */
  lemma ConnectingIndexesAgree(c: Config, s: State, id: TaskId, p: Pubkey, a: SocketAddr)
    requires At(c, s)
    ensures (p in s.dialPeers && s.dialPeers[p] == id) <==> (id in s.dials && p in s.dials[id].peers)
    ensures (a in s.dialAddrs && s.dialAddrs[a] == id) <==> (id in s.dials && s.dials[id].addr == a)
    ensures id in s.dials ==> NoDuplicates(s.dials[id].peers) && s.dials[id].peers != []
    ensures id in s.dials ==> s.dials[id].identity == s.identity && 1 <= s.dials[id].attempt <= Max(1, c.maxConnectionAttempts)
    ensures !(p in s.dialPeers && p in s.workers)
    ensures !(a in s.dialAddrs && a in s.conns)
  {
    ReachableKeeps(c, s);
    if id in s.dials {
      assert DialOk(id, s.dials, s.dialPeers, s.dialAddrs, s.nextTask);
      assert DialCurrent(c, id, s.dials, s.identity);
    }
    if p in s.dialPeers {
      assert PeerDials(p, s.dials, s.dialPeers);
    }
    if a in s.dialAddrs {
      assert AddrDials(a, s.dials, s.dialAddrs);
    }
  }

  /** Every blocked waiter is a live attempt to its address that has not been let go, no two wait
      for the same address, and no attempt is held back that is not on the list. */
  lemma WaitersAreLive(c: Config, s: State, i: nat, j: nat, id: TaskId)
    requires At(c, s) && i < |s.blocked| && j < |s.blocked|
    ensures s.blocked[i].task in s.dials && s.dials[s.blocked[i].task].addr == s.blocked[i].addr
    ensures s.blocked[i].task in s.parked
    ensures i != j ==> s.blocked[i].addr != s.blocked[j].addr
    ensures id in s.parked ==> exists k :: 0 <= k < |s.blocked| && s.blocked[k].task == id
  {
    ReachableKeeps(c, s);
    var tasks := WaiterTasks(s.blocked);
    assert s.blocked[i] in s.blocked && s.blocked[j] in s.blocked;
    assert WaiterOk(s.blocked[i], s.dials) && WaiterOk(s.blocked[j], s.dials);
    assert tasks[i] in tasks;
    ConnectingIndexesAgree(c, s, s.blocked[i].task, s.identity, s.blocked[i].addr);
    ConnectingIndexesAgree(c, s, s.blocked[j].task, s.identity, s.blocked[j].addr);
    assert i != j ==> tasks[i] != tasks[j];
    if id in s.parked {
      var k :| 0 <= k < |tasks| && tasks[k] == id;
      assert s.blocked[k].task == id;
    }
  }

  // ---------------------------------------------------------------- eviction

  /** A pending eviction is a live connection that still has workers. */
  lemma PendingIsLive(c: Config, s: State, e: ConnectionId)
    requires At(c, s) && e in s.pending
    ensures e.addr in s.conns && s.conns[e.addr].version == e.version
    ensures exists p :: p in s.conns[e.addr].peers && p in s.workers && s.workers[p].addr == e.addr
  {
    ReachableKeeps(c, s);
    assert PendingOk(e, s.conns);
    assert Staffed(e.addr, s.workers, s.conns);
    var p :| p in s.conns[e.addr].peers;
    assert p in s.workers && s.workers[p].addr == e.addr;
  }

  /** A peer being evicted has a worker, already told to stop, on a pending connection, and every
      other peer of that connection is being evicted as well. */
  lemma EvictionIsClosed(c: Config, s: State, p: Pubkey, q: Pubkey)
    requires At(c, s) && p in s.evicted
    ensures p in s.workers && ConnectionId(s.workers[p].addr, s.workers[p].version) in s.pending
    ensures s.workers[p].task in s.tasks && s.tasks[s.workers[p].task].cancelled
    ensures q in s.workers && s.workers[q].addr == s.workers[p].addr ==> q in s.evicted
  {
    ReachableKeeps(c, s);
    assert EvictedOk(p, s.evicted, s.workers, s.conns, s.pending, s.tasks);
    if q in s.workers && s.workers[q].addr == s.workers[p].addr {
      assert Served(q, s.workers, s.conns);
    }
  }

  /** In one event no worker joins a connection that is and stays to be evicted; it can only
      lose some. */
  lemma NoWorkerJoinsPending(c: Config, s: State, ev: Event, e: ConnectionId)
    requires At(c, s) && Enabled(s, ev) && e in s.pending
    ensures var t := Step(c, s, ev);
            e in t.pending ==>
              && e.addr in s.conns && e.addr in t.conns && t.conns[e.addr].version == s.conns[e.addr].version
              && t.conns[e.addr].peers.Keys <= s.conns[e.addr].peers.Keys
  {
    hide Step;
    ReachableKeeps(c, s);
    StepJoins(c, s, ev);
    assert PendingOk(e, s.conns);
    if e in Step(c, s, ev).pending {
      assert PendingOk(e, Step(c, s, ev).conns);
    }
  }

  // ---------------------------------------------------------------- orphans

  /** The orphan set holds exactly the connections that have no worker. */
  lemma OrphansHaveNoWorkers(c: Config, s: State, k: ConnectionId)
    requires At(c, s)
    ensures k in s.orphans <==>
      k.addr in s.conns && s.conns[k.addr].version == k.version && forall p :: p in s.workers ==> s.workers[p].addr != k.addr
  {
    ReachableKeeps(c, s);
    if k.addr in s.conns {
      assert Staffed(k.addr, s.workers, s.conns);
      assert OrphanListed(k.addr, s.orphans, s.conns);
      forall p | p in s.workers && s.workers[p].addr == k.addr ensures s.conns[k.addr].peers != map[] {
        assert Served(p, s.workers, s.conns);
      }
      if s.conns[k.addr].peers != map[] {
        var p :| p in s.conns[k.addr].peers;
        assert s.workers[p].addr == k.addr;
      }
    }
    if k in s.orphans {
      assert OrphanOk(k, s.conns);
    }
  }

  /** The sweep closes a connection exactly if it has had no worker for the whole time to live,
      and each closed connection lets one waiter go on, as long as there are any. */
  lemma {:induction false} SweepClosesIdleConnections(c: Config, s: State, now: Instant, a: SocketAddr)
    requires At(c, s)
    ensures var t := TryEvictOrphans(c, s, now);
            && (a in t.conns <==> a in s.conns && !(ConnectionId(a, s.conns[a].version) in s.orphans && s.orphans[ConnectionId(a, s.conns[a].version)] + c.orphanTtl <= now))
            && (a in t.conns ==> t.conns[a] == s.conns[a])
            && (a in s.conns && a !in t.conns ==> forall p :: p in s.workers ==> s.workers[p].addr != a)
            && |t.blocked| == Saturating(|s.blocked| - (|s.conns| - |t.conns|))
  {
    hide Inv, Books;
    ReachableKeeps(c, s);
    ExactOrphans(c, s);
    SweepCounts(c, s, now);
    if a in s.conns && a !in TryEvictOrphans(c, s, now).conns {
      var k :| k in Expired(c, s, now) && k.addr == a;
      OrphansHaveNoWorkers(c, s, k);
      assert OrphanOk(k, s.conns);
    }
  }

  lemma ExactOrphans(c: Config, s: State)
    requires Inv(c, s)
    ensures OrphansExact(s.orphans, s.conns, {})
  {
  }

  lemma {:induction false} SweepCounts(c: Config, s: State, now: Instant)
    requires OrphansExact(s.orphans, s.conns, {})
    ensures |Expired(c, s, now)| == |s.conns| - |TryEvictOrphans(c, s, now).conns|
  {
    var expired := Expired(c, s, now);
    ExpiredAreEmpty(c, s, now);
    CountAddresses(expired);
    assert Addresses(expired) <= s.conns.Keys;
    assert TryEvictOrphans(c, s, now).conns.Keys == s.conns.Keys - Addresses(expired);
  }

  lemma {:induction false} CountAddresses(ids: set<ConnectionId>)
    requires forall j, k :: j in ids && k in ids && j.addr == k.addr ==> j == k
    ensures |Addresses(ids)| == |ids|
  {
    if ids == {} {
      assert Addresses(ids) == {};
    } else {
      var k :| k in ids;
      CountAddresses(ids - {k});
      assert Addresses(ids) == Addresses(ids - {k}) + {k.addr};
      assert k.addr !in Addresses(ids - {k});
    }
  }

  // ---------------------------------------------------------------- queues and stakes

  /** A waiting queue is not empty, within capacity, and exists only for a peer without a worker;
      so is the channel of a worker. All a queue holds is for its peer. */
  lemma QueuesAreBounded(c: Config, s: State, p: Pubkey, id: TaskId)
    requires At(c, s)
    ensures p in s.queues ==> 0 < |s.queues[p]| <= c.capacity && p !in s.workers && forall e :: e in s.queues[p] ==> e.tx.peer == p
    ensures id in s.tasks ==> |s.tasks[id].channel| <= c.capacity && forall e :: e in Leftover(s.tasks[id]) ==> e.tx.peer == s.tasks[id].peer
  {
    ReachableKeeps(c, s);
    if p in s.queues {
      assert QueueOk(c, p, s.queues, s.workers);
    }
    if id in s.tasks {
      LeftoverIsForPeer(c, s, id);
      assert TaskOk(c, id, s.workers, s.tasks, s.nextTask);
    }
  }

  /** The address index holds, for every connection, the sum of the stakes its peers are indexed
      with; a peer is indexed exactly while it has a worker. */
  lemma StakeIndexesAgree(c: Config, s: State, a: SocketAddr, p: Pubkey)
    requires At(c, s)
    ensures a in s.conns ==> a in s.addrStakes && s.addrStakes[a] == TotalStake(s.conns[a].peers)
    ensures p in s.peerStakes <==> p in s.workers
    ensures p in s.workers ==>
      && s.workers[p].addr in s.conns
      && p in s.conns[s.workers[p].addr].peers
      && s.conns[s.workers[p].addr].peers[p] == s.peerStakes[p]
  {
    ReachableKeeps(c, s);
    if a in s.conns {
      assert AddrStaked(a, s.addrStakes, s.conns);
    }
    if p in s.workers {
      assert PeerStaked(p, s.peerStakes, s.workers, s.conns);
    }
  }

  // ---------------------------------------------------------------- conservation

  lemma {:induction false} CopiesSum(a: multiset<Entry>, b: multiset<Entry>, tx: Txn, n: nat)
    ensures Copies(a + b, tx, n) == Copies(a, tx, n) + Copies(b, tx, n)
    decreases n
  {
    if n > 0 {
      CopiesSum(a, b, tx, n - 1);
    }
  }

  /** The copies of an accepted transaction that can be accounted for: in a peer's queue, with a
      worker, with a worker of an old identity, or reported to the callback. */
  ghost function Accounted(s: State, tx: Txn, n: nat): nat {
    Copies(Bag(s.queues, Queued), tx, n) + Copies(Bag(s.tasks, Carried), tx, n)
    + Copies(Handed(s.drains), tx, n) + Copies(Reported(s.responses), tx, n)
  }

  /** Every accepted transaction is accounted for, or lies in a queue that an identity update
      discarded; none is in two of these places. */
  lemma TransactionsAreConserved(c: Config, s: State, tx: Txn)
    requires At(c, s)
    ensures s.accepted[tx] == Accounted(s, tx, c.maxSendAttempts) + Copies(Discarded(s.drains), tx, c.maxSendAttempts)
    ensures InRange(Total(s), c.maxSendAttempts)
  {
    hide Inv;
    ReachableKeeps(c, s);
    var n := c.maxSendAttempts;
    CopiesSum(Owned(s) + Reported(s.responses), Away(s.drains), tx, n);
    CopiesSum(Owned(s), Reported(s.responses), tx, n);
    CopiesSum(Handed(s.drains), Discarded(s.drains), tx, n);
    CopiesSum(Bag(s.queues, Queued), Bag(s.tasks, Carried), tx, n);
  }

  lemma {:induction false} CopiesFound(m: multiset<Entry>, e: Entry, n: nat)
    requires e in m && 1 <= e.attempt <= n
    ensures Copies(m, e.tx, n) >= 1
    decreases n
  {
    if e.attempt < n {
      CopiesFound(m, e, n - 1);
    }
  }

  /** All accepted transactions are accounted for if and only if no identity update so far found
      a waiting queue. */
  lemma {:induction false} LostExactly(c: Config, s: State)
    requires At(c, s)
    ensures (forall tx {:trigger s.accepted[tx]} :: s.accepted[tx] == Accounted(s, tx, c.maxSendAttempts))
            <==> forall k :: 0 <= k < |s.drains| ==> s.drains[k].queues == map[]
  {
    hide Inv, Accounted, Discarded, DrainOk, Owned, Reported, Handed;
    ReachableKeeps(c, s);
    DiscardedNone(s.drains);
    var n := c.maxSendAttempts;
    forall tx ensures s.accepted[tx] == Accounted(s, tx, n) + Copies(Discarded(s.drains), tx, n) {
      TransactionsAreConserved(c, s, tx);
    }
    if Discarded(s.drains) == multiset{} {
      forall tx ensures s.accepted[tx] == Accounted(s, tx, n) {
        NoCopies(tx, n);
      }
    } else {
      var e :| e in Discarded(s.drains);
      assert e in Total(s);
      CopiesFound(Discarded(s.drains), e, n);
      assert s.accepted[e.tx] != Accounted(s, e.tx, n);
    }
  }

  /** In a run without an identity update every accepted transaction is queued, with a worker, or
      reported, as often as it was accepted. */
  lemma {:induction false} EachTransactionIsReportedOnce(c: Config, identity: Pubkey, evs: seq<Event>, s: State, tx: Txn)
    requires c.maxSendAttempts >= 1 && Run(c, Initial(identity), evs, s)
    requires forall i :: 0 <= i < |evs| ==> !evs[i].IdentityUpdated?
    ensures var n := c.maxSendAttempts;
            s.accepted[tx] == Copies(Bag(s.queues, Queued), tx, n) + Copies(Bag(s.tasks, Carried), tx, n) + Copies(Reported(s.responses), tx, n)
  {
    hide Inv, Books;
    InitialInv(c, identity);
    InitialBooks(c, identity);
    RunKeeps(c, Initial(identity), evs, s);
    TransactionsAreConserved(c, s, tx);
    assert s.drains == [];
    NoCopies(tx, c.maxSendAttempts);
  }

  /** What the callback hears: a response names the peer its transactions are for, a drop is empty
      only for a worker of an old identity, and a failure is reported only for the last attempt. */
  lemma ResponsesAreRouted(c: Config, s: State, i: nat)
    requires At(c, s) && i < |s.responses|
    ensures Routed(c, s.responses[i])
  {
    hide Inv;
    ReachableKeeps(c, s);
    assert Routed(c, s.responses[i]);
  }

  // ---------------------------------------------------------------- send attempts

  lemma {:induction false} SendsDescend(held: multiset<Entry>, sends: multiset<Entry>, accepted: multiset<Txn>, tx: Txn, a: nat)
    requires Flows(held, sends, accepted) && a >= 1
    ensures held[Entry(tx, a)] + sends[Entry(tx, a)] <= accepted[tx]
    decreases a
  {
    if a > 1 {
      SendsDescend(held, sends, accepted, tx, a - 1);
      assert held[Entry(tx, (a - 1) + 1)] + sends[Entry(tx, (a - 1) + 1)] <= sends[Entry(tx, a - 1)];
    }
  }

  lemma {:induction false} SendCopiesBound(held: multiset<Entry>, sends: multiset<Entry>, accepted: multiset<Txn>, tx: Txn, n: nat)
    requires Flows(held, sends, accepted)
    ensures Copies(sends, tx, n) <= n * accepted[tx]
    decreases n
  {
    if n > 0 {
      SendCopiesBound(held, sends, accepted, tx, n - 1);
      SendsDescend(held, sends, accepted, tx, n);
      var k := accepted[tx];
      assert n * k == (n - 1) * k + k;
    }
  }

  /** Over its whole life, across failing workers, rescues and identity updates, a transaction
      causes at most `maxSendAttempts` send calls per time it was accepted. `Copies` counts them all, because no
      call has any other attempt number. */
  lemma SendCallsAreBounded(c: Config, s: State, tx: Txn)
    requires At(c, s)
    ensures Copies(s.sends, tx, c.maxSendAttempts) <= c.maxSendAttempts * s.accepted[tx]
    ensures forall e :: e in s.sends ==> 1 <= e.attempt <= c.maxSendAttempts
  {
    hide Inv;
    ReachableKeeps(c, s);
    SendCopiesBound(Held(s), s.sends, s.accepted, tx, c.maxSendAttempts);
  }

  /** For a transaction accepted once, an entry that waits with attempt number `a` has made
      exactly the calls 1 to `a - 1`, and each only once. */
  lemma AttemptCountsSends(c: Config, s: State, tx: Txn, a: nat, k: nat)
    requires At(c, s) && s.accepted[tx] == 1 && Entry(tx, a) in Held(s) && k >= 1
    ensures s.sends[Entry(tx, k)] == if k < a then 1 else 0
  {
    hide Inv;
    ReachableKeeps(c, s);
    EarlierSends(Held(s), s.sends, s.accepted, tx, a, k);
  }

  lemma {:induction false} EarlierSends(held: multiset<Entry>, sends: multiset<Entry>, accepted: multiset<Txn>, tx: Txn, a: nat, k: nat)
    requires Flows(held, sends, accepted) && accepted[tx] == 1 && held[Entry(tx, a)] >= 1 && a >= 1 && k >= 1
    ensures sends[Entry(tx, k)] == if k < a then 1 else 0
    decreases if k < a then a - k else k
  {
    if k == a {
      SendsDescend(held, sends, accepted, tx, a);
    } else if k < a {
      SendsDescend(held, sends, accepted, tx, k);
      assert held[Entry(tx, k + 1)] + sends[Entry(tx, k + 1)] <= sends[Entry(tx, k)];
      if k + 1 < a {
        EarlierSends(held, sends, accepted, tx, a, k + 1);
      }
    } else {
      EarlierSends(held, sends, accepted, tx, a, k - 1);
      assert held[Entry(tx, (k - 1) + 1)] + sends[Entry(tx, (k - 1) + 1)] <= sends[Entry(tx, k - 1)];
    }
  }

  // ---------------------------------------------------------------- the identity update

  /** What the detached task would report if all workers ended at the identity update: for each
      worker the queue of its peer together with what the worker still holds. */
  ghost function Drainable(s: State): multiset<Entry> {
    Bag(s.tasks, (w: Worker) => multiset(Lookup(s.queues, w.peer, []) + Leftover(w)))
  }

  /** A peer with a worker has no queue, so the drain takes over exactly what the workers hold.
      The waiting queues of all other peers are handed over too, but no worker stands for them:
      they are discarded, and nothing is exactly if there are none. */
  lemma IdentityUpdateLosesWaitingQueues(c: Config, s: State, identity: Pubkey)
    requires At(c, s)
    ensures Drainable(s) == Bag(s.tasks, Carried)
    ensures var r := ResetForIdentity(s, identity);
            && Handed(r.drains) == Handed(s.drains) + Drainable(s)
            && Discarded(r.drains) == Discarded(s.drains) + Bag(s.queues, Queued)
            && (Discarded(r.drains) == Discarded(s.drains) <==> s.queues == map[])
  {
    hide Inv, Books, Bag, Drainable;
    ReachableKeeps(c, s);
    DrainableIsCarried(c, s);
    AwayPush(s.drains, Drain(s.tasks, s.queues));
    WaitingEntries(c, s);
    if s.queues != map[] {
      var e :| e in Bag(s.queues, Queued);
      Bigger(Discarded(s.drains), Bag(s.queues, Queued), e);
    }
  }

  lemma DrainableIsCarried(c: Config, s: State)
    requires Inv(c, s)
    ensures Drainable(s) == Bag(s.tasks, Carried)
  {
    var drain := (w: Worker) => multiset(Lookup(s.queues, w.peer, []) + Leftover(w));
    forall id | id in s.tasks ensures drain(s.tasks[id]) == Carried(s.tasks[id]) {
      hide Leftover;
      assert TaskOk(c, id, s.workers, s.tasks, s.nextTask);
      var p := s.tasks[id].peer;
      assert p in s.queues ==> QueueOk(c, p, s.queues, s.workers);
      assert [] + Leftover(s.tasks[id]) == Leftover(s.tasks[id]);
    }
    SameEntries(s.tasks, drain, Carried);
  }

  lemma WaitingEntries(c: Config, s: State)
    requires Inv(c, s)
    ensures Bag(s.queues, Queued) == multiset{} <==> s.queues == map[]
  {
    if s.queues != map[] {
      var p :| p in s.queues;
      assert QueueOk(c, p, s.queues, s.workers);
      BagSplit(s.queues, p, Queued);
      assert s.queues[p][0] in multiset(s.queues[p]);
      assert s.queues[p][0] in Bag(s.queues, Queued);
    }
  }

  lemma Bigger(a: multiset<Entry>, b: multiset<Entry>, e: Entry)
    requires e in b
    ensures a + b != a
  {
    assert (a + b)[e] > a[e];
  }

  /** What an identity update discards stays discarded: whatever happens afterwards, the queues of
      that moment lie untouched in its drain. */
  lemma {:induction false} DiscardedQueuesStay(c: Config, s: State, identity: Pubkey, order: seq<TaskId>, ans: Answers, evs: seq<Event>, t: State)
    requires At(c, s) && Enabled(s, IdentityUpdated(identity, order, ans))
    requires Run(c, Step(c, s, IdentityUpdated(identity, order, ans)), evs, t)
    ensures |s.drains| < |t.drains| && t.drains[|s.drains|].queues == s.queues
  {
    hide Inv, Books, UpdateIdentity, Moves, Run;
    var ev := IdentityUpdated(identity, order, ans);
    ReachableKeeps(c, s);
    StepInv(c, s, ev);
    StepBooks(c, s, ev);
    UpdateHandsOver(c, s, identity, order, ans);
    RunKeeps(c, Step(c, s, ev), evs, t);
  }

  lemma UpdateHandsOver(c: Config, s: State, identity: Pubkey, order: seq<TaskId>, ans: Answers)
    requires Inv(c, s) && forall id :: id in order ==> id in s.dials
    ensures UpdateIdentity(c, s, identity, order, ans).drains == s.drains + [Drain(s.tasks, s.queues)]
  {
    hide UpdateIdentity;
    UpdateIdentityMoves(c, s, identity, order, ans);
  }

  /** A run that loses a transaction: it is accepted for a peer that is still to be connected to,
      and the identity changes. Afterwards it is in no queue and with no worker, and the
      callback never heard of it. */
  lemma {:induction false} IdentityUpdateLosesTransaction(c: Config, tx: Txn, a: SocketAddr, identity: Pubkey, identity': Pubkey)
    requires c.capacity >= 1 && |tx.wire| <= TransactionDataSizeLimit(tx.wire)
    ensures var ans := Answers(p => Some(a), p => Some(a), p => 0);
            exists t :: Run(c, Initial(identity), [TxArrived(tx, 0, ans), IdentityUpdated(identity', [0], ans)], t) && LostIn(t, tx)
  {
    hide AcceptTx, UpdateIdentity, Run, Step, Enabled, LostIn;
    var ans := Answers(p => Some(a), p => Some(a), p => 0);
    var s0 := Initial(identity);
    var s := AcceptTx(c, s0, tx, 0, Some(a), 0);
    FirstWaits(c, tx, a, identity);
    FirstStep(c, s0, tx, a);
    SecondStep(c, s, identity', ans);
    WaitingIsLost(c, s, a, identity');
    var t := UpdateIdentity(c, s, identity', [0], ans);
    TwoSteps(c, s0, TxArrived(tx, 0, ans), IdentityUpdated(identity', [0], ans));
    assert LostIn(t, tx) by {
      LostBy(t, tx);
    }
  }

  /** The transaction, accepted once, is nowhere but in a discarded queue. */
  ghost predicate LostIn(t: State, tx: Txn) {
    && t.accepted == multiset{tx} && t.queues == map[] && t.tasks == map[] && t.responses == []
    && t.drains == [Drain(map[], map[tx.peer := [Entry(tx, 1)]])]
  }

  lemma LostBy(t: State, tx: Txn)
    requires t.accepted == multiset{tx} && t.queues == map[] && t.tasks == map[] && t.responses == []
    requires t.drains == [] + [Drain(map[], map[tx.peer := [Entry(tx, 1)]])]
    ensures LostIn(t, tx)
  {
  }

  lemma FirstStep(c: Config, s: State, tx: Txn, a: SocketAddr)
    ensures var ans := Answers(p => Some(a), p => Some(a), p => 0);
            Enabled(s, TxArrived(tx, 0, ans)) && Step(c, s, TxArrived(tx, 0, ans)) == AcceptTx(c, s, tx, 0, Some(a), 0)
  {
    hide AcceptTx;
  }

  lemma SecondStep(c: Config, s: State, identity: Pubkey, ans: Answers)
    requires s.dials.Keys == {0}
    ensures Enabled(s, IdentityUpdated(identity, [0], ans))
    ensures Step(c, s, IdentityUpdated(identity, [0], ans)) == UpdateIdentity(c, s, identity, [0], ans)
  {
    hide UpdateIdentity;
  }

  lemma TwoSteps(c: Config, s: State, ev: Event, ev': Event)
    requires Enabled(s, ev) && Enabled(Step(c, s, ev), ev')
    ensures Run(c, s, [ev, ev'], Step(c, Step(c, s, ev), ev'))
  {
    hide Step, Enabled;
    var t := Step(c, s, ev);
    assert [ev, ev'][1..] == [ev'] && [ev'][1..] == [];
    assert Run(c, Step(c, t, ev'), [], Step(c, t, ev'));
    assert Run(c, t, [ev'], Step(c, t, ev'));
  }

  lemma FirstWaits(c: Config, tx: Txn, a: SocketAddr, identity: Pubkey)
    requires c.capacity >= 1 && |tx.wire| <= TransactionDataSizeLimit(tx.wire)
    ensures var s := AcceptTx(c, Initial(identity), tx, 0, Some(a), 0);
            && s.accepted == multiset{tx} && s.queues == map[tx.peer := [Entry(tx, 1)]] && s.tasks == map[] && s.responses == []
            && s.drains == [] && s.dials == map[0 := Dial(identity, [tx.peer], a, 1)]
  {
    var s := Initial(identity).(lastActivity := map[tx.peer := 0], accepted := multiset{tx});
    assert multiset{} + multiset{tx} == multiset{tx};
    var queued := QueueOrDrop(c, s, tx.peer, Entry(tx, 1));
    assert [] + [Entry(tx, 1)] == [Entry(tx, 1)];
    assert queued.queues == map[tx.peer := [Entry(tx, 1)]];
    assert AcceptTx(c, Initial(identity), tx, 0, Some(a), 0) == StartDial(c, queued, tx.peer, a, 1);
  }

  lemma WaitingIsLost(c: Config, s: State, a: SocketAddr, identity: Pubkey)
    requires |s.dials| == 1 && 0 in s.dials && |s.dials[0].peers| == 1
    ensures var ans := Answers(p => Some(a), p => Some(a), p => 0);
            var t := UpdateIdentity(c, s, identity, [0], ans);
            && t.queues == map[] && t.tasks == map[] && t.responses == s.responses && t.accepted == s.accepted
            && t.drains == s.drains + [Drain(s.tasks, s.queues)]
  {
    hide SpawnConnecting, ResetForIdentity;
    var ans := Answers(p => Some(a), p => Some(a), p => 0);
    var r := ResetForIdentity(s, identity);
    var dial := s.dials[0];
    var order: seq<TaskId> := [0];
    var dials := seq(|order|, i requires 0 <= i < |order| => s.dials[order[i]]);
    assert dials == [dial] && dials[1..] == [] && dial.peers[1..] == [];
    DialAfterReset(c, s, identity, dial.peers[0], a, dial.attempt);
    var u := SpawnConnecting(c, r, dial.peers[0], dial.attempt, Some(a), 0);
    assert SpawnAll(c, r, dial.peers, dial.attempt, ans) == SpawnAll(c, u, [], dial.attempt, ans) == u;
    assert Redial(c, r, dials, ans) == Redial(c, u, [], ans) == u;
  }

  lemma DialAfterReset(c: Config, s: State, identity: Pubkey, p: Pubkey, a: SocketAddr, attempt: nat)
    ensures var r := ResetForIdentity(s, identity);
            var u := SpawnConnecting(c, r, p, attempt, Some(a), 0);
            u.queues == map[] && u.tasks == map[] && u.responses == s.responses && u.accepted == s.accepted && u.drains == r.drains
            && r.drains == s.drains + [Drain(s.tasks, s.queues)]
  {
    var r := ResetForIdentity(s, identity);
    assert SpawnConnecting(c, r, p, attempt, Some(a), 0) == StartDial(c, r, p, a, attempt);
  }

  lemma {:induction false} SameEntries<K, V>(m: map<K, V>, f: V -> multiset<Entry>, g: V -> multiset<Entry>)
    requires forall k | k in m :: f(m[k]) == g(m[k])
    ensures Bag(m, f) == Bag(m, g)
    decreases |m|
  {
    if m != map[] {
      var k :| k in m && Bag(m, f) == f(m[k]) + Bag(m - {k}, f);
      BagSplit(m, k, g);
      assert (m - {k}).Keys == m.Keys - {k};
      SameEntries(m - {k}, f, g);
    }
  }
}
