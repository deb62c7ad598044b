/** The handlers that take workers and connections away keep the invariant: finished workers,
    eviction, address changes, the orphan sweep and the identity update. */
module DriverClosing {
  import opened Types
  import opened Bags
  import opened DriverState
  import opened DriverInvariant
  import opened DriverSteps

  // ---------------------------------------------------------------- a finished worker

  /** Under the invariant a finished task has a worker whose connection is the one it was
      installed on: the version-mismatch branches of the driver cannot be taken. */
  lemma TaskIsServed(c: Config, s: State, id: TaskId)
    requires Inv(c, s) && id in s.tasks
    ensures var p := s.tasks[id].peer;
            && Served(p, s.workers, s.conns)
            && s.workers[p].task == id
            && Staffed(s.workers[p].addr, s.workers, s.conns)
            && (forall q :: q in s.workers && q != p ==> s.workers[q].task != id)
  {
    assert TaskOk(c, id, s.workers, s.tasks, s.nextTask);
    var p := s.tasks[id].peer;
    assert Served(p, s.workers, s.conns);
    assert Staffed(s.workers[p].addr, s.workers, s.conns);
    forall q | q in s.workers && q != p ensures s.workers[q].task != id {
      assert OwnsTask(q, s.workers, s.tasks);
    }
  }

  ghost predicate CanRetire(c: Config, s: State, id: TaskId) {
    && id in s.tasks
    && Served(s.tasks[id].peer, s.workers, s.conns)
    && s.workers[s.tasks[id].peer].task == id
  }

  lemma RetireWorkers(c: Config, s: State, id: TaskId, now: Instant)
    requires Agreement(s.workers, s.conns) && TaskAgreement(c, s.workers, s.tasks, s.nextTask) && CanRetire(c, s, id)
    ensures var s' := RetireWorker(s, id, now);
            Agreement(s'.workers, s'.conns) && TaskAgreement(c, s'.workers, s'.tasks, s'.nextTask)
  {
    var s' := RetireWorker(s, id, now);
    var p := s.tasks[id].peer;
    var addr := s.workers[p].addr;
    forall q | q in s'.workers ensures Served(q, s'.workers, s'.conns) && OwnsTask(q, s'.workers, s'.tasks) {
      assert Served(q, s.workers, s.conns) && OwnsTask(q, s.workers, s.tasks);
      assert s.workers[q].addr == addr ==> q in s.conns[addr].peers - {p};
    }
    forall a | a in s'.conns ensures Staffed(a, s'.workers, s'.conns) {
      assert Staffed(a, s.workers, s.conns);
    }
    forall i | i in s'.tasks ensures TaskOk(c, i, s'.workers, s'.tasks, s'.nextTask) {
      assert TaskOk(c, i, s.workers, s.tasks, s.nextTask);
    }
  }

  lemma RetireStakes(c: Config, s: State, id: TaskId, now: Instant)
    requires Agreement(s.workers, s.conns) && CanRetire(c, s, id)
    requires QueuesOk(c, s.queues, s.workers) && PeerStakesOk(s.peerStakes, s.workers, s.conns)
    requires VersionsFresh(s.conns, s.nextVersion)
    ensures var s' := RetireWorker(s, id, now);
            && QueuesOk(c, s'.queues, s'.workers) && PeerStakesOk(s'.peerStakes, s'.workers, s'.conns)
            && VersionsFresh(s'.conns, s'.nextVersion)
  {
    var s' := RetireWorker(s, id, now);
    var p := s.tasks[id].peer;
    var addr := s.workers[p].addr;
    forall q | q in s'.queues ensures QueueOk(c, q, s'.queues, s'.workers) {
      assert QueueOk(c, q, s.queues, s.workers);
    }
    forall q | q in s'.peerStakes ensures PeerStaked(q, s'.peerStakes, s'.workers, s'.conns) {
      assert PeerStaked(q, s.peerStakes, s.workers, s.conns);
      assert Served(q, s.workers, s.conns);
      assert s.workers[q].addr == addr ==> q in s.conns[addr].peers - {p};
    }
    assert forall a :: a in s'.conns ==> a in s.conns && s'.conns[a].version == s.conns[a].version;
  }

  lemma RetireDials(c: Config, s: State, id: TaskId, now: Instant)
    requires DialsInv(c, s) && CanRetire(c, s, id)
    ensures DialsInv(c, RetireWorker(s, id, now))
  {
    UnblockKeeps(s.blocked, s.parked, s.dials, 1);
  }

  lemma RetireEviction(c: Config, s: State, id: TaskId, now: Instant)
    requires Agreement(s.workers, s.conns) && TaskAgreement(c, s.workers, s.tasks, s.nextTask) && CanRetire(c, s, id)
    requires PendingsOk(s.pending, s.conns) && EvictionClosed(s.evicted, s.workers, s.conns, s.pending, s.tasks)
    ensures var s' := RetireWorker(s, id, now);
            PendingsOk(s'.pending, s'.conns) && EvictionClosed(s'.evicted, s'.workers, s'.conns, s'.pending, s'.tasks)
  {
    var s' := RetireWorker(s, id, now);
    var p := s.tasks[id].peer;
    var addr := s.workers[p].addr;
    forall e | e in s'.pending ensures PendingOk(e, s'.conns) {
      assert PendingOk(e, s.conns);
    }
    forall q | q in s'.evicted ensures EvictedOk(q, s'.evicted, s'.workers, s'.conns, s'.pending, s'.tasks) {
      assert EvictedOk(q, s.evicted, s.workers, s.conns, s.pending, s.tasks);
      assert Served(q, s.workers, s.conns) && OwnsTask(q, s.workers, s.tasks);
      assert Staffed(s.workers[q].addr, s.workers, s.conns);
      assert s.workers[q].addr == addr ==> q in s.conns[addr].peers - {p};
    }
  }

  lemma RetireIndexes(c: Config, s: State, id: TaskId, now: Instant)
    requires CanRetire(c, s, id)
    requires OrphansExact(s.orphans, s.conns, {}) && AddrStakesOk(s.addrStakes, s.conns, {})
    ensures var s' := RetireWorker(s, id, now);
            OrphansExact(s'.orphans, s'.conns, {}) && AddrStakesOk(s'.addrStakes, s'.conns, {})
  {
    var s' := RetireWorker(s, id, now);
    var p := s.tasks[id].peer;
    var addr := s.workers[p].addr;
    forall k | k in s'.orphans ensures OrphanOk(k, s'.conns) {
      assert k in s.orphans ==> OrphanOk(k, s.conns);
    }
    forall a | a in s'.conns && a !in {} ensures OrphanListed(a, s'.orphans, s'.conns) && AddrStaked(a, s'.addrStakes, s'.conns) {
      assert OrphanListed(a, s.orphans, s.conns) && AddrStaked(a, s.addrStakes, s.conns);
    }
    forall a | a in s'.addrStakes && a !in s'.conns ensures StaleStake(a, s'.addrStakes) {
      assert StaleStake(a, s.addrStakes);
    }
  }

  lemma RetireKeeps(c: Config, s: State, id: TaskId, now: Instant)
    requires Inv(c, s) && CanRetire(c, s, id)
    ensures Inv(c, RetireWorker(s, id, now))
    ensures s.tasks[id].peer !in RetireWorker(s, id, now).workers
  {
    RetireWorkers(c, s, id, now);
    RetireStakes(c, s, id, now);
    RetireDials(c, s, id, now);
    RetireEviction(c, s, id, now);
    RetireIndexes(c, s, id, now);
  }

  lemma LeftoverIsForPeer(c: Config, s: State, id: TaskId)
    requires Inv(c, s) && id in s.tasks
    ensures forall e :: e in Leftover(s.tasks[id]) ==> e.tx.peer == s.tasks[id].peer
  {
    var w := s.tasks[id];
    assert TaskOk(c, id, s.workers, s.tasks, s.nextTask);
    forall e | e in Leftover(w) ensures e.tx.peer == w.peer {
      if e in Fresh(w.channel) {
        var i :| 0 <= i < |w.channel| && Fresh(w.channel)[i] == e;
        assert w.channel[i] in w.channel;
      }
    }
  }

  lemma {:induction false} WorkerResultKeeps(c: Config, s: State, id: TaskId, versionMismatch: bool, now: Instant, ans: Answers)
    requires Inv(c, s) && CanRetire(c, s, id)
    ensures Inv(c, HandleWorkerResult(c, s, id, versionMismatch, now, ans))
  {
    hide InvExcept;
    var p := s.tasks[id].peer;
    var retired := RetireWorker(s, id, now);
    RetireKeeps(c, s, id, now);
    LeftoverIsForPeer(c, s, id);
    QueueAllKeeps(c, retired, p, Leftover(s.tasks[id]));
    var rescued := QueueAll(c, retired, p, Leftover(s.tasks[id]));
    if versionMismatch {
      DropQueuedKeeps(c, rescued, p, RemotePeerUnreachable, {});
    } else if p in s.evicted {
      DropQueuedKeeps(c, rescued, p, RemotePeerBeingEvicted, {});
    } else if p in rescued.queues {
      var active := rescued.(lastActivity := rescued.lastActivity[p := now]);
      NotingKeeps(c, rescued, active.lastActivity, active.accepted);
      SpawnConnectingKeeps(c, active, p, 1, ans.dest(p), ans.stake(p));
    }
  }

  // ---------------------------------------------------------------- eviction

  lemma CancelKeepsTasks(c: Config, s: State, peers: set<Pubkey>)
    requires TaskAgreement(c, s.workers, s.tasks, s.nextTask)
    ensures TaskAgreement(c, s.workers, CancelTasks(s.tasks, peers), s.nextTask)
  {
    var tasks := CancelTasks(s.tasks, peers);
    forall q | q in s.workers ensures OwnsTask(q, s.workers, tasks) {
      assert OwnsTask(q, s.workers, s.tasks);
    }
    forall i | i in tasks ensures TaskOk(c, i, s.workers, tasks, s.nextTask) {
      assert TaskOk(c, i, s.workers, s.tasks, s.nextTask);
    }
  }

  lemma EvictClosure(c: Config, s: State, plan: set<Pubkey>)
    requires Agreement(s.workers, s.conns) && TaskAgreement(c, s.workers, s.tasks, s.nextTask)
    requires PendingsOk(s.pending, s.conns) && EvictionClosed(s.evicted, s.workers, s.conns, s.pending, s.tasks)
    ensures var s' := Evict(s, plan);
            PendingsOk(s'.pending, s'.conns) && EvictionClosed(s'.evicted, s'.workers, s'.conns, s'.pending, s'.tasks)
  {
    var s' := Evict(s, plan);
    forall e | e in s'.pending ensures PendingOk(e, s'.conns) {
      if e in s.pending {
        assert PendingOk(e, s.conns);
      } else {
        var p :| p in plan && p in s.workers && e == ConnectionId(s.workers[p].addr, s.workers[p].version);
        assert Served(p, s.workers, s.conns);
      }
    }
    forall q | q in s'.evicted ensures EvictedOk(q, s'.evicted, s'.workers, s'.conns, s'.pending, s'.tasks) {
      if q in Companions(s, plan) {
        var p :| p in plan && p in s.workers && s.workers[p].addr in s.conns && q in s.conns[s.workers[p].addr].peers;
        var addr := s.workers[p].addr;
        assert Staffed(addr, s.workers, s.conns);
        assert Served(p, s.workers, s.conns) && Served(q, s.workers, s.conns) && OwnsTask(q, s.workers, s.tasks);
        assert ConnectionId(addr, s.workers[p].version) in Targets(s, plan);
        assert forall r :: r in s.conns[addr].peers ==> r in Companions(s, plan);
      } else {
        assert EvictedOk(q, s.evicted, s.workers, s.conns, s.pending, s.tasks);
      }
    }
  }

  lemma EvictKeeps(c: Config, s: State, plan: set<Pubkey>)
    requires Inv(c, s)
    ensures Inv(c, Evict(s, plan))
  {
    CancelKeepsTasks(c, s, Companions(s, plan));
    EvictClosure(c, s, plan);
  }

  lemma DoEvictionKeeps(c: Config, s: State, plan: seq<Pubkey>, fallback: Option<SocketAddr>)
    requires Inv(c, s)
    ensures Inv(c, DoEvictionIfRequired(s, plan, fallback))
  {
    hide InvExcept;
    if EvictionsRequired(s) == 0 {
    } else if plan == [] && s.pending == {} {
      if fallback.Some? && fallback.value in s.conns {
        EvictKeeps(c, s, s.conns[fallback.value].peers.Keys);
      }
    } else {
      EvictKeeps(c, s, Elements(plan));
    }
  }

  lemma AddrChangeKeeps(c: Config, s: State, changed: set<Pubkey>, ans: Answers)
    requires Inv(c, s)
    ensures Inv(c, HandleAddrChange(s, changed, ans))
  {
    var s' := HandleAddrChange(s, changed, ans);
    CancelKeepsTasks(c, s, MovedPeers(s, changed, ans));
    forall e | e in s'.pending ensures PendingOk(e, s'.conns) {
      if e in s.pending {
        assert PendingOk(e, s.conns);
      } else {
        var p :| p in changed && Vanished(s, p, ans) && e == ConnectionId(s.workers[p].addr, s.workers[p].version);
        assert Served(p, s.workers, s.conns);
      }
    }
    forall q | q in s'.evicted ensures EvictedOk(q, s'.evicted, s'.workers, s'.conns, s'.pending, s'.tasks) {
      assert EvictedOk(q, s.evicted, s.workers, s.conns, s.pending, s.tasks);
    }
  }

  // ---------------------------------------------------------------- the orphan sweep

  /** An expired orphan is an established connection without workers. */
  lemma ExpiredAreEmpty(c: Config, s: State, now: Instant)
    requires OrphansExact(s.orphans, s.conns, {})
    ensures forall a :: a in Addresses(Expired(c, s, now)) ==> a in s.conns && s.conns[a].peers == map[]
    ensures forall j, k :: j in s.orphans && k in s.orphans && j.addr == k.addr ==> j == k
  {
    forall a | a in Addresses(Expired(c, s, now)) ensures a in s.conns && s.conns[a].peers == map[] {
      var k :| k in Expired(c, s, now) && k.addr == a;
      assert OrphanOk(k, s.conns);
    }
    forall j, k | j in s.orphans && k in s.orphans && j.addr == k.addr ensures j == k {
      assert OrphanOk(j, s.conns) && OrphanOk(k, s.conns);
    }
  }

  lemma SweepWorkers(c: Config, s: State, now: Instant)
    requires WorkersInv(c, s) && OrphansExact(s.orphans, s.conns, {})
    ensures WorkersInv(c, TryEvictOrphans(c, s, now))
  {
    var s' := TryEvictOrphans(c, s, now);
    ExpiredAreEmpty(c, s, now);
    forall q | q in s'.workers ensures Served(q, s'.workers, s'.conns) {
      assert Served(q, s.workers, s.conns);
    }
    forall a | a in s'.conns ensures Staffed(a, s'.workers, s'.conns) {
      assert Staffed(a, s.workers, s.conns);
    }
    forall q | q in s'.peerStakes ensures PeerStaked(q, s'.peerStakes, s'.workers, s'.conns) {
      assert PeerStaked(q, s.peerStakes, s.workers, s.conns);
    }
  }

  lemma SweepEviction(c: Config, s: State, now: Instant)
    requires EvictionInv(s, {}) && Agreement(s.workers, s.conns)
    ensures EvictionInv(TryEvictOrphans(c, s, now), {})
  {
    var s' := TryEvictOrphans(c, s, now);
    ExpiredAreEmpty(c, s, now);
    forall e | e in s'.pending ensures PendingOk(e, s'.conns) {
      assert PendingOk(e, s.conns);
    }
    forall q | q in s'.evicted ensures EvictedOk(q, s'.evicted, s'.workers, s'.conns, s'.pending, s'.tasks) {
      assert EvictedOk(q, s.evicted, s.workers, s.conns, s.pending, s.tasks);
      assert Served(q, s.workers, s.conns);
    }
    forall k | k in s'.orphans ensures OrphanOk(k, s'.conns) {
      assert OrphanOk(k, s.conns);
    }
    forall a | a in s'.conns && a !in {} ensures OrphanListed(a, s'.orphans, s'.conns) && AddrStaked(a, s'.addrStakes, s'.conns) {
      assert OrphanListed(a, s.orphans, s.conns) && AddrStaked(a, s.addrStakes, s.conns);
    }
    forall a | a in s'.addrStakes && a !in s'.conns ensures StaleStake(a, s'.addrStakes) {
      if a in s.conns {
        assert AddrStaked(a, s.addrStakes, s.conns);
      } else {
        assert StaleStake(a, s.addrStakes);
      }
    }
  }

  lemma SweepKeeps(c: Config, s: State, now: Instant)
    requires Inv(c, s)
    ensures Inv(c, TryEvictOrphans(c, s, now))
  {
    SweepWorkers(c, s, now);
    SweepEviction(c, s, now);
    UnblockKeeps(s.blocked, s.parked, s.dials, |Expired(c, s, now)|);
  }

  // ---------------------------------------------------------------- prediction and identity

  lemma {:induction false} SpawnAllKeeps(c: Config, s: State, peers: seq<Pubkey>, attempt: nat, ans: Answers)
    requires Inv(c, s) && 1 <= attempt <= Max(1, c.maxConnectionAttempts)
    ensures Inv(c, SpawnAll(c, s, peers, attempt, ans))
    decreases |peers|
  {
    hide InvExcept;
    if peers != [] {
      var p := peers[0];
      SpawnConnectingKeeps(c, s, p, attempt, ans.dest(p), ans.stake(p));
      SpawnAllKeeps(c, SpawnConnecting(c, s, p, attempt, ans.dest(p), ans.stake(p)), peers[1..], attempt, ans);
    }
  }

  lemma ResetInv(c: Config, s: State, identity: Pubkey)
    ensures Inv(c, ResetForIdentity(s, identity))
  {
  }

  lemma {:induction false} RedialKeeps(c: Config, s: State, dials: seq<Dial>, ans: Answers)
    requires Inv(c, s) && forall i :: 0 <= i < |dials| ==> 1 <= dials[i].attempt <= Max(1, c.maxConnectionAttempts)
    ensures Inv(c, Redial(c, s, dials, ans))
    decreases |dials|
  {
    hide InvExcept;
    if dials != [] {
      SpawnAllKeeps(c, s, dials[0].peers, dials[0].attempt, ans);
      RedialKeeps(c, SpawnAll(c, s, dials[0].peers, dials[0].attempt, ans), dials[1..], ans);
    }
  }

  lemma UpdateIdentityKeeps(c: Config, s: State, identity: Pubkey, order: seq<TaskId>, ans: Answers)
    requires Inv(c, s) && forall id :: id in order ==> id in s.dials
    ensures Inv(c, UpdateIdentity(c, s, identity, order, ans))
  {
    var dials := seq(|order|, i requires 0 <= i < |order| => s.dials[order[i]]);
    forall i | 0 <= i < |dials| ensures 1 <= dials[i].attempt <= Max(1, c.maxConnectionAttempts) {
      assert DialCurrent(c, order[i], s.dials, s.identity);
    }
    ResetInv(c, s, identity);
    RedialKeeps(c, ResetForIdentity(s, identity), dials, ans);
  }
}
