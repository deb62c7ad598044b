/** Each building block of the handlers keeps the invariant. */
module DriverSteps {
  import opened Types
  import opened Bags
  import opened DriverState
  import opened DriverInvariant

  lemma InitialInv(c: Config, identity: Pubkey)
    ensures Inv(c, Initial(identity))
  {
  }

  // ---------------------------------------------------------------- installing a worker

  ghost predicate CanInstall(s: State, p: Pubkey, addr: SocketAddr) {
    p !in s.workers && p !in s.dialPeers && addr in s.conns && !PendingAt(s, addr)
  }

  lemma InstallAgreement(c: Config, s: State, p: Pubkey, addr: SocketAddr, stake: nat)
    requires Agreement(s.workers, s.conns) && p !in s.workers && addr in s.conns
    ensures var s' := InstallWorker(s, p, addr, stake); Agreement(s'.workers, s'.conns)
  {
    var s' := InstallWorker(s, p, addr, stake);
    assert Staffed(addr, s.workers, s.conns);
    forall q | q in s'.workers ensures Served(q, s'.workers, s'.conns) {
      assert q != p ==> Served(q, s.workers, s.conns);
    }
    forall a | a in s'.conns ensures Staffed(a, s'.workers, s'.conns) {
      assert Staffed(a, s.workers, s.conns);
    }
  }

  lemma InstallTasks(c: Config, s: State, p: Pubkey, addr: SocketAddr, stake: nat)
    requires TaskAgreement(c, s.workers, s.tasks, s.nextTask) && QueuesOk(c, s.queues, s.workers)
    requires p !in s.workers && addr in s.conns
    ensures var s' := InstallWorker(s, p, addr, stake);
            TaskAgreement(c, s'.workers, s'.tasks, s'.nextTask) && QueuesOk(c, s'.queues, s'.workers)
  {
    var s' := InstallWorker(s, p, addr, stake);
    var id := s.nextTask;
    assert id in s.tasks ==> TaskOk(c, id, s.workers, s.tasks, s.nextTask);
    assert p in s.queues ==> QueueOk(c, p, s.queues, s.workers);
    forall q | q in s'.workers ensures OwnsTask(q, s'.workers, s'.tasks) {
      assert q != p ==> OwnsTask(q, s.workers, s.tasks);
    }
    forall i | i in s'.tasks ensures TaskOk(c, i, s'.workers, s'.tasks, s'.nextTask) {
      assert i != id ==> TaskOk(c, i, s.workers, s.tasks, s.nextTask);
    }
    forall q | q in s'.queues ensures QueueOk(c, q, s'.queues, s'.workers) {
      assert QueueOk(c, q, s.queues, s.workers);
    }
  }

  lemma InstallPeerStakes(c: Config, s: State, p: Pubkey, addr: SocketAddr, stake: nat)
    requires PeerStakesOk(s.peerStakes, s.workers, s.conns) && p !in s.workers && addr in s.conns
    ensures var s' := InstallWorker(s, p, addr, stake); PeerStakesOk(s'.peerStakes, s'.workers, s'.conns)
  {
    var s' := InstallWorker(s, p, addr, stake);
    forall q | q in s'.peerStakes ensures PeerStaked(q, s'.peerStakes, s'.workers, s'.conns) {
      assert q != p ==> PeerStaked(q, s.peerStakes, s.workers, s.conns);
    }
  }

  lemma InstallEviction(c: Config, s: State, p: Pubkey, addr: SocketAddr, stake: nat)
    requires PendingsOk(s.pending, s.conns) && EvictionClosed(s.evicted, s.workers, s.conns, s.pending, s.tasks)
    requires TaskAgreement(c, s.workers, s.tasks, s.nextTask) && CanInstall(s, p, addr)
    ensures var s' := InstallWorker(s, p, addr, stake);
            PendingsOk(s'.pending, s'.conns) && EvictionClosed(s'.evicted, s'.workers, s'.conns, s'.pending, s'.tasks)
  {
    var s' := InstallWorker(s, p, addr, stake);
    forall e | e in s'.pending ensures PendingOk(e, s'.conns) {
      assert PendingOk(e, s.conns);
    }
    forall q | q in s'.evicted ensures EvictedOk(q, s'.evicted, s'.workers, s'.conns, s'.pending, s'.tasks) {
      assert EvictedOk(q, s.evicted, s.workers, s.conns, s.pending, s.tasks);
      assert TaskOk(c, s.workers[q].task, s.workers, s.tasks, s.nextTask);
    }
  }

  lemma InstallIndexes(s: State, p: Pubkey, addr: SocketAddr, stake: nat, unstaffed: set<SocketAddr>)
    requires OrphansExact(s.orphans, s.conns, unstaffed) && AddrStakesOk(s.addrStakes, s.conns, unstaffed)
    requires p !in s.workers && addr in s.conns
    ensures var s' := InstallWorker(s, p, addr, stake);
            OrphansExact(s'.orphans, s'.conns, unstaffed - {addr}) && AddrStakesOk(s'.addrStakes, s'.conns, unstaffed - {addr})
  {
    var s' := InstallWorker(s, p, addr, stake);
    forall k | k in s'.orphans ensures OrphanOk(k, s'.conns) {
      assert OrphanOk(k, s.conns);
    }
    forall a | a in s'.conns && a !in unstaffed - {addr} ensures OrphanListed(a, s'.orphans, s'.conns) {
      assert a != addr ==> OrphanListed(a, s.orphans, s.conns);
      assert p in s'.conns[addr].peers;
    }
    forall a | a in s'.conns && a !in unstaffed - {addr} ensures AddrStaked(a, s'.addrStakes, s'.conns) {
      assert a != addr ==> AddrStaked(a, s.addrStakes, s.conns);
    }
    forall a | a in s'.addrStakes && a !in s'.conns ensures StaleStake(a, s'.addrStakes) {
      assert StaleStake(a, s.addrStakes);
    }
  }

  /** Installing a worker on a connection that is not being evicted; if the connection was
      fresh it now has a peer. */
  lemma InstallKeeps(c: Config, s: State, p: Pubkey, addr: SocketAddr, stake: nat, unstaffed: set<SocketAddr>)
    requires InvExcept(c, s, unstaffed) && CanInstall(s, p, addr)
    ensures InvExcept(c, InstallWorker(s, p, addr, stake), unstaffed - {addr})
  {
    hide Agreement, TaskAgreement, QueuesOk, PeerStakesOk, PendingsOk, EvictionClosed, OrphansExact, AddrStakesOk, DialsInv;
    InstallAgreement(c, s, p, addr, stake);
    InstallTasks(c, s, p, addr, stake);
    InstallPeerStakes(c, s, p, addr, stake);
    InstallEviction(c, s, p, addr, stake);
    InstallIndexes(s, p, addr, stake, unstaffed);
    InstallDials(c, s, p, addr, stake);
  }

  lemma InstallDials(c: Config, s: State, p: Pubkey, addr: SocketAddr, stake: nat)
    requires DialsInv(c, s) && CanInstall(s, p, addr)
    ensures DialsInv(c, InstallWorker(s, p, addr, stake))
  {
    hide DialAgreement, DialsCurrent, WaitersOk;
    DialsLater(s.dials, s.dialPeers, s.dialAddrs, s.nextTask, s.nextTask + 1);
  }

  lemma DialsLater(dials: map<TaskId, Dial>, dialPeers: map<Pubkey, TaskId>, dialAddrs: map<SocketAddr, TaskId>, next: nat, later: nat)
    requires DialAgreement(dials, dialPeers, dialAddrs, next) && next <= later
    ensures DialAgreement(dials, dialPeers, dialAddrs, later)
  {
    forall id | id in dials ensures DialOk(id, dials, dialPeers, dialAddrs, later) {
      assert DialOk(id, dials, dialPeers, dialAddrs, next);
    }
  }

  lemma TasksLater(c: Config, workers: map<Pubkey, Handle>, tasks: map<TaskId, Worker>, next: nat, later: nat)
    requires TaskAgreement(c, workers, tasks, next) && next <= later
    ensures TaskAgreement(c, workers, tasks, later)
  {
    forall id | id in tasks ensures TaskOk(c, id, workers, tasks, later) {
      assert TaskOk(c, id, workers, tasks, next);
    }
  }

  // ---------------------------------------------------------------- waiting queues

  /** The log of responses is no part of the invariant. */
  lemma ReportKeeps(c: Config, s: State, r: Response, unstaffed: set<SocketAddr>)
    requires InvExcept(c, s, unstaffed)
    ensures InvExcept(c, Report(s, r), unstaffed)
  {
  }

  lemma DropQueuedKeeps(c: Config, s: State, p: Pubkey, reason: DropReason, unstaffed: set<SocketAddr>)
    requires InvExcept(c, s, unstaffed)
    ensures InvExcept(c, DropQueued(s, p, reason), unstaffed)
  {
    if p in s.queues {
      var s' := s.(queues := s.queues - {p});
      forall q | q in s'.queues ensures QueueOk(c, q, s'.queues, s'.workers) {
        assert QueueOk(c, q, s.queues, s.workers);
      }
    }
  }

  lemma QueuePushKeeps(c: Config, queues: map<Pubkey, seq<Entry>>, workers: map<Pubkey, Handle>, p: Pubkey, entries: seq<Entry>)
    requires QueuesOk(c, queues, workers)
    requires p !in workers && forall e :: e in entries ==> e.tx.peer == p
    requires 0 < |entries| <= c.capacity - |Lookup(queues, p, [])|
    ensures QueuesOk(c, queues[p := Lookup(queues, p, []) + entries], workers)
  {
    var queues' := queues[p := Lookup(queues, p, []) + entries];
    forall q | q in queues' ensures QueueOk(c, q, queues', workers) {
      assert q in queues ==> QueueOk(c, q, queues, workers);
    }
  }

  lemma QueueOrDropKeeps(c: Config, s: State, p: Pubkey, e: Entry)
    requires Inv(c, s) && p !in s.workers && e.tx.peer == p
    ensures Inv(c, QueueOrDrop(c, s, p, e))
  {
    if HasRoom(c, s, p) {
      QueuePushKeeps(c, s.queues, s.workers, p, [e]);
    } else {
      ReportKeeps(c, s, TxDrop(p, RateLimited, [e]), {});
    }
  }

  lemma QueueAllKeeps(c: Config, s: State, p: Pubkey, entries: seq<Entry>)
    requires Inv(c, s) && p !in s.workers && forall e :: e in entries ==> e.tx.peer == p
    ensures Inv(c, QueueAll(c, s, p, entries))
  {
    var n := Min(|entries|, Saturating(c.capacity - |Lookup(s.queues, p, [])|));
    if n > 0 {
      assert forall e :: e in entries[..n] ==> e in entries;
      QueuePushKeeps(c, s.queues, s.workers, p, entries[..n]);
    }
  }

  // ---------------------------------------------------------------- connection attempts

  lemma JoinDialKeeps(c: Config, s: State, p: Pubkey, id: TaskId)
    requires Inv(c, s) && id in s.dials && p !in s.dialPeers && p !in s.workers
    ensures Inv(c, JoinDial(s, p, id))
  {
    JoinDialIndexes(c, s, p, id);
    WaitersMapped(s.blocked, s.parked, s.dials, JoinDial(s, p, id).dials);
  }

  lemma JoinDialIndexes(c: Config, s: State, p: Pubkey, id: TaskId)
    requires DialAgreement(s.dials, s.dialPeers, s.dialAddrs, s.nextTask) && DialsCurrent(c, s.dials, s.identity)
    requires id in s.dials && p !in s.dialPeers
    ensures var s' := JoinDial(s, p, id);
            DialAgreement(s'.dials, s'.dialPeers, s'.dialAddrs, s'.nextTask) && DialsCurrent(c, s'.dials, s'.identity)
  {
    var s' := JoinDial(s, p, id);
    assert DialOk(id, s.dials, s.dialPeers, s.dialAddrs, s.nextTask);
    forall i | i in s'.dials ensures DialOk(i, s'.dials, s'.dialPeers, s'.dialAddrs, s'.nextTask) {
      assert DialOk(i, s.dials, s.dialPeers, s.dialAddrs, s.nextTask);
    }
    forall q | q in s'.dialPeers ensures PeerDials(q, s'.dials, s'.dialPeers) {
      assert q != p ==> PeerDials(q, s.dials, s.dialPeers);
    }
    forall a | a in s'.dialAddrs ensures AddrDials(a, s'.dials, s'.dialAddrs) {
      assert AddrDials(a, s.dials, s.dialAddrs);
    }
    forall i | i in s'.dials ensures DialCurrent(c, i, s'.dials, s'.identity) {
      assert DialCurrent(c, i, s.dials, s.identity);
    }
  }

  /** Waiters only depend on which attempts there are and where they go. */
  lemma WaitersMapped(blocked: seq<Waiter>, parked: set<TaskId>, dials: map<TaskId, Dial>, dials': map<TaskId, Dial>)
    requires WaitersOk(blocked, parked, dials)
    requires forall id :: id in parked && id in dials ==> id in dials' && dials'[id].addr == dials[id].addr
    ensures WaitersOk(blocked, parked, dials')
  {
    forall w | w in blocked ensures WaiterOk(w, dials') {
      assert WaiterOk(w, dials);
      WaiterParked(blocked, w);
    }
  }

  lemma WaiterParked(blocked: seq<Waiter>, w: Waiter)
    requires w in blocked
    ensures w.task in Elements(WaiterTasks(blocked))
  {
    var i :| 0 <= i < |blocked| && blocked[i] == w;
    assert WaiterTasks(blocked)[i] == w.task;
  }

  lemma StartDialIndexes(c: Config, s: State, p: Pubkey, addr: SocketAddr, attempt: nat)
    requires DialAgreement(s.dials, s.dialPeers, s.dialAddrs, s.nextTask) && DialsCurrent(c, s.dials, s.identity)
    requires addr !in s.dialAddrs && p !in s.dialPeers
    requires 1 <= attempt <= Max(1, c.maxConnectionAttempts)
    ensures var s' := StartDial(c, s, p, addr, attempt);
            DialAgreement(s'.dials, s'.dialPeers, s'.dialAddrs, s'.nextTask) && DialsCurrent(c, s'.dials, s'.identity)
  {
    var s' := StartDial(c, s, p, addr, attempt);
    var id := s.nextTask;
    assert id in s.dials ==> DialOk(id, s.dials, s.dialPeers, s.dialAddrs, s.nextTask);
    forall i | i in s'.dials ensures DialOk(i, s'.dials, s'.dialPeers, s'.dialAddrs, s'.nextTask) {
      assert i != id ==> DialOk(i, s.dials, s.dialPeers, s.dialAddrs, s.nextTask);
    }
    forall q | q in s'.dialPeers ensures PeerDials(q, s'.dials, s'.dialPeers) {
      assert q != p ==> PeerDials(q, s.dials, s.dialPeers);
    }
    forall a | a in s'.dialAddrs ensures AddrDials(a, s'.dials, s'.dialAddrs) {
      assert a != addr ==> AddrDials(a, s.dials, s.dialAddrs);
    }
    forall i | i in s'.dials ensures DialCurrent(c, i, s'.dials, s'.identity) {
      assert i != id ==> DialCurrent(c, i, s.dials, s.identity);
    }
  }

  lemma StartDialWaiters(c: Config, s: State, p: Pubkey, addr: SocketAddr, attempt: nat)
    requires DialAgreement(s.dials, s.dialPeers, s.dialAddrs, s.nextTask) && WaitersOk(s.blocked, s.parked, s.dials)
    ensures var s' := StartDial(c, s, p, addr, attempt); WaitersOk(s'.blocked, s'.parked, s'.dials)
  {
    var s' := StartDial(c, s, p, addr, attempt);
    var id := s.nextTask;
    assert id in s.dials ==> DialOk(id, s.dials, s.dialPeers, s.dialAddrs, s.nextTask);
    WaitersMapped(s.blocked, s.parked, s.dials, s'.dials);
    if s'.blocked != s.blocked {
      var w := Waiter(addr, id);
      assert WaiterTasks(s'.blocked) == WaiterTasks(s.blocked) + [id];
      forall v | v in s.blocked ensures v.task != id {
        assert WaiterOk(v, s.dials);
      }
      assert forall i :: 0 <= i < |s.blocked| ==> s.blocked[i] in s.blocked;
      forall v | v in s'.blocked ensures WaiterOk(v, s'.dials) {
        assert v != w ==> WaiterOk(v, s'.dials);
      }
    }
  }

  lemma {:induction false} StartDialKeeps(c: Config, s: State, p: Pubkey, addr: SocketAddr, attempt: nat)
    requires Inv(c, s)
    requires p !in s.dialPeers && p !in s.workers && addr !in s.dialAddrs && addr !in s.conns
    requires 1 <= attempt <= Max(1, c.maxConnectionAttempts)
    ensures Inv(c, StartDial(c, s, p, addr, attempt))
  {
    StartDialIndexes(c, s, p, addr, attempt);
    StartDialWaiters(c, s, p, addr, attempt);
    TasksLater(c, s.workers, s.tasks, s.nextTask, s.nextTask + 1);
  }

  lemma {:induction false} SpawnConnectingKeeps(c: Config, s: State, p: Pubkey, attempt: nat, dest: Option<SocketAddr>, stake: nat)
    requires Inv(c, s) && 1 <= attempt <= Max(1, c.maxConnectionAttempts)
    ensures Inv(c, SpawnConnecting(c, s, p, attempt, dest, stake))
  {
    if p in s.dialPeers || p in s.evicted || p in s.workers {
    } else if dest.None? {
      DropQueuedKeeps(c, s, p, RemotePeerUnreachable, {});
    } else if PendingAt(s, dest.value) {
    } else if dest.value in s.conns {
      InstallKeeps(c, s, p, dest.value, stake, {});
      assert {} - {dest.value} == {};
    } else if dest.value in s.dialAddrs {
      assert AddrDials(dest.value, s.dials, s.dialAddrs);
      JoinDialKeeps(c, s, p, s.dialAddrs[dest.value]);
    } else {
      StartDialKeeps(c, s, p, dest.value, attempt);
    }
  }

  lemma EndDialKeeps(c: Config, s: State, id: TaskId)
    requires Inv(c, s) && id in s.dials && id !in s.parked
    ensures Inv(c, EndDial(s, id))
  {
    var s' := EndDial(s, id);
    assert DialOk(id, s.dials, s.dialPeers, s.dialAddrs, s.nextTask);
    forall i | i in s'.dials ensures DialOk(i, s'.dials, s'.dialPeers, s'.dialAddrs, s'.nextTask) {
      assert DialOk(i, s.dials, s.dialPeers, s.dialAddrs, s.nextTask);
    }
    forall q | q in s'.dialPeers ensures PeerDials(q, s'.dials, s'.dialPeers) {
      assert PeerDials(q, s.dials, s.dialPeers);
    }
    forall a | a in s'.dialAddrs ensures AddrDials(a, s'.dials, s'.dialAddrs) {
      assert AddrDials(a, s.dials, s.dialAddrs);
    }
    forall i | i in s'.dials ensures DialCurrent(c, i, s'.dials, s'.identity) {
      assert DialCurrent(c, i, s.dials, s.identity);
    }
    WaitersMapped(s.blocked, s.parked, s.dials, s'.dials);
  }

  // ---------------------------------------------------------------- the result of an attempt

  lemma ConnectKeeps(c: Config, s: State, addr: SocketAddr)
    requires Inv(c, s) && addr !in s.conns && addr !in s.dialAddrs
    ensures InvExcept(c, Connect(s, addr), {addr}) && !PendingAt(Connect(s, addr), addr)
  {
    ConnectWorkers(c, s, addr);
    ConnectEviction(s, addr);
    ConnectIndexes(s, addr);
  }

  lemma ConnectWorkers(c: Config, s: State, addr: SocketAddr)
    requires WorkersInv(c, s) && addr !in s.conns
    ensures WorkersInv(c, Connect(s, addr))
  {
    hide TaskAgreement, QueuesOk;
    var s' := Connect(s, addr);
    ConnectAgreement(s.workers, s.conns, addr, s'.conns[addr]);
    forall q | q in s'.peerStakes ensures PeerStaked(q, s'.peerStakes, s'.workers, s'.conns) {
      hide Agreement;
      assert PeerStaked(q, s.peerStakes, s.workers, s.conns);
    }
  }

  lemma ConnectAgreement(workers: map<Pubkey, Handle>, conns: map<SocketAddr, Connection>, addr: SocketAddr, conn: Connection)
    requires Agreement(workers, conns) && addr !in conns && conn.peers == map[]
    ensures Agreement(workers, conns[addr := conn])
  {
    var conns' := conns[addr := conn];
    forall q | q in workers ensures Served(q, workers, conns') {
      assert Served(q, workers, conns);
    }
    forall a | a in conns' ensures Staffed(a, workers, conns') {
      assert a != addr ==> Staffed(a, workers, conns);
    }
  }

  lemma ConnectEviction(s: State, addr: SocketAddr)
    requires PendingsOk(s.pending, s.conns) && EvictionClosed(s.evicted, s.workers, s.conns, s.pending, s.tasks)
    requires addr !in s.conns
    ensures var s' := Connect(s, addr);
            && PendingsOk(s'.pending, s'.conns) && !PendingAt(s', addr)
            && EvictionClosed(s'.evicted, s'.workers, s'.conns, s'.pending, s'.tasks)
  {
    var s' := Connect(s, addr);
    forall e | e in s.pending ensures PendingOk(e, s'.conns) && e.addr != addr {
      assert PendingOk(e, s.conns);
    }
    forall q | q in s'.evicted ensures EvictedOk(q, s'.evicted, s'.workers, s'.conns, s'.pending, s'.tasks) {
      assert EvictedOk(q, s.evicted, s.workers, s.conns, s.pending, s.tasks);
    }
  }

  lemma ConnectIndexes(s: State, addr: SocketAddr)
    requires OrphansExact(s.orphans, s.conns, {}) && AddrStakesOk(s.addrStakes, s.conns, {}) && addr !in s.conns
    ensures var s' := Connect(s, addr);
            OrphansExact(s'.orphans, s'.conns, {addr}) && AddrStakesOk(s'.addrStakes, s'.conns, {addr})
  {
    var s' := Connect(s, addr);
    forall k | k in s'.orphans ensures OrphanOk(k, s'.conns) {
      assert OrphanOk(k, s.conns);
    }
    forall a | a in s'.conns && a !in {addr} ensures OrphanListed(a, s'.orphans, s'.conns) && AddrStaked(a, s'.addrStakes, s'.conns) {
      assert OrphanListed(a, s.orphans, s.conns) && AddrStaked(a, s.addrStakes, s.conns);
    }
    forall a | a in s'.addrStakes && a !in s'.conns ensures StaleStake(a, s'.addrStakes) {
      assert StaleStake(a, s.addrStakes);
    }
  }

  lemma DistinctRest<T>(s: seq<T>)
    requires s != [] && NoDuplicates(s)
    ensures NoDuplicates(s[1..]) && forall x | x in s[1..] :: x in s && x != s[0]
  {
  }

  lemma InstallFrame(s: State, p: Pubkey, addr: SocketAddr, stake: nat)
    requires p !in s.workers && addr in s.conns && !PendingAt(s, addr)
    ensures var s' := InstallWorker(s, p, addr, stake);
            && addr in s'.conns && !PendingAt(s', addr)
            && (forall q :: q in s'.dialPeers <==> q in s.dialPeers)
            && (forall q :: q in s'.workers <==> q in s.workers || q == p)
  {
  }

  lemma {:induction false} InstallAllKeeps(c: Config, s: State, peers: seq<Pubkey>, addr: SocketAddr, ans: Answers, unstaffed: set<SocketAddr>)
    requires InvExcept(c, s, unstaffed) && addr in s.conns && !PendingAt(s, addr)
    requires NoDuplicates(peers) && forall p :: p in peers ==> p !in s.workers && p !in s.dialPeers
    ensures InvExcept(c, InstallAll(s, peers, addr, ans), if peers == [] then unstaffed else unstaffed - {addr})
    decreases |peers|
  {
    hide InvExcept;
    if peers != [] {
      var p := peers[0];
      var s1 := InstallWorker(s, p, addr, ans.stake(p));
      InstallKeeps(c, s, p, addr, ans.stake(p), unstaffed);
      InstallFrame(s, p, addr, ans.stake(p));
      DistinctRest(peers);
      InstallAllKeeps(c, s1, peers[1..], addr, ans, unstaffed - {addr});
      assert unstaffed - {addr} - {addr} == unstaffed - {addr};
    }
  }

  lemma {:induction false} UnreachableAllKeeps(c: Config, s: State, peers: seq<Pubkey>)
    requires Inv(c, s)
    ensures Inv(c, UnreachableAll(s, peers))
    decreases |peers|
  {
    hide InvExcept;
    if peers != [] {
      DropQueuedKeeps(c, s, peers[0], RemotePeerUnreachable, {});
      UnreachableAllKeeps(c, DropQueued(s, peers[0], RemotePeerUnreachable), peers[1..]);
    }
  }

  lemma {:induction false} RetryPeerKeeps(c: Config, s: State, p: Pubkey, dial: Dial, ans: Answers)
    requires Inv(c, s) && 1 <= dial.attempt < c.maxConnectionAttempts
    ensures Inv(c, RetryPeer(c, s, p, dial, ans))
  {
    hide InvExcept;
    if ans.dest(p).None? {
      DropQueuedKeeps(c, s, p, RemotePeerUnreachable, {});
    } else {
      SpawnConnectingKeeps(c, s, p, RetryAttempt(dial, ans.dest(p).value), ans.again(p), ans.stake(p));
    }
  }

  lemma {:induction false} RetryAllKeeps(c: Config, s: State, peers: seq<Pubkey>, dial: Dial, ans: Answers)
    requires Inv(c, s) && 1 <= dial.attempt < c.maxConnectionAttempts
    ensures Inv(c, RetryAll(c, s, peers, dial, ans))
    decreases |peers|
  {
    hide InvExcept;
    if peers != [] {
      RetryPeerKeeps(c, s, peers[0], dial, ans);
      RetryAllKeeps(c, RetryPeer(c, s, peers[0], dial, ans), peers[1..], dial, ans);
    }
  }

  /** What is known once a finished attempt has been taken out: its address is free and its
      peers have neither a worker nor another attempt. */
  lemma EndedDial(c: Config, s: State, id: TaskId)
    requires Inv(c, s) && id in s.dials && id !in s.parked
    ensures var e := EndDial(s, id);
            && Inv(c, e)
            && s.dials[id].addr !in e.conns && s.dials[id].addr !in e.dialAddrs
            && s.dials[id].peers != [] && NoDuplicates(s.dials[id].peers)
            && (forall p :: p in s.dials[id].peers ==> p !in e.workers && p !in e.dialPeers)
            && s.dials[id].identity == s.identity
            && s.dials[id].attempt >= 1
  {
    EndDialKeeps(c, s, id);
    assert DialOk(id, s.dials, s.dialPeers, s.dialAddrs, s.nextTask);
    assert DialCurrent(c, id, s.dials, s.identity);
  }

  lemma ConnectingResultKeeps(c: Config, s: State, id: TaskId, outcome: ConnectOutcome, ans: Answers)
    requires Inv(c, s) && id in s.dials && id !in s.parked
    ensures Inv(c, HandleConnectingResult(c, s, id, outcome, ans))
  {
    hide InvExcept;
    var dial := s.dials[id];
    var ended := EndDial(s, id);
    EndedDial(c, s, id);
    match outcome
    case Connected =>
      ConnectKeeps(c, ended, dial.addr);
      InstallAllKeeps(c, Connect(ended, dial.addr), dial.peers, dial.addr, ans, {dial.addr});
      assert {dial.addr} - {dial.addr} == {};
    case ConnectionFailed =>
      if dial.attempt < c.maxConnectionAttempts {
        RetryAllKeeps(c, ended, dial.peers, dial, ans);
      } else {
        UnreachableAllKeeps(c, ended, dial.peers);
      }
    case _ => UnreachableAllKeeps(c, ended, dial.peers);
  }

  // ---------------------------------------------------------------- accepting transactions

  lemma NotingKeeps(c: Config, s: State, lastActivity: map<Pubkey, Instant>, accepted: multiset<Txn>)
    requires Inv(c, s)
    ensures Inv(c, s.(lastActivity := lastActivity, accepted := accepted))
  {
  }

  lemma WorkerTask(c: Config, s: State, p: Pubkey)
    requires Inv(c, s) && p in s.workers
    ensures OwnsTask(p, s.workers, s.tasks) && TaskOk(c, s.workers[p].task, s.workers, s.tasks, s.nextTask)
  {
    assert OwnsTask(p, s.workers, s.tasks);
    assert TaskOk(c, s.workers[p].task, s.workers, s.tasks, s.nextTask);
  }

  lemma {:induction false} AcceptTxKeeps(c: Config, s: State, tx: Txn, now: Instant, dest: Option<SocketAddr>, stake: nat)
    requires Inv(c, s)
    ensures Inv(c, AcceptTx(c, s, tx, now, dest, stake))
  {
    hide InvExcept;
    var p := tx.peer;
    var s1 := s.(lastActivity := s.lastActivity[p := now], accepted := s.accepted + multiset{tx});
    NotingKeeps(c, s, s1.lastActivity, s1.accepted);
    if |tx.wire| > TransactionDataSizeLimit(tx.wire) && !c.allowAnySize {
      ReportKeeps(c, s1, TxDrop(p, InvalidPacketSize, [Entry(tx, 1)]), {});
    } else if p in s.workers {
      WorkerTask(c, s, p);
      var id := s.workers[p].task;
      if |s.tasks[id].channel| < c.capacity {
        SetTaskKeeps(c, s1, id, s.tasks[id].(channel := s.tasks[id].channel + [tx]));
      } else {
        ReportKeeps(c, s1, TxDrop(p, RateLimited, [Entry(tx, 1)]), {});
      }
    } else {
      QueueOrDropKeeps(c, s1, p, Entry(tx, 1));
      if HasRoom(c, s1, p) {
        SpawnConnectingKeeps(c, QueueOrDrop(c, s1, p, Entry(tx, 1)), p, 1, dest, stake);
      }
    }
  }

  // ---------------------------------------------------------------- workers

  /** A step of one worker that keeps its channel within capacity and its transactions its peer's. */
  lemma SetTaskKeeps(c: Config, s: State, id: TaskId, w: Worker)
    requires Inv(c, s) && id in s.tasks
    requires w.peer == s.tasks[id].peer && w.addr == s.tasks[id].addr && w.cancelled == s.tasks[id].cancelled
    requires |w.channel| <= c.capacity
    requires forall tx :: tx in w.channel ==> tx.peer == w.peer
    requires forall e :: e in w.queue ==> e.tx.peer == w.peer
    ensures Inv(c, SetTask(s, id, w))
  {
    var s' := SetTask(s, id, w);
    assert TaskOk(c, id, s.workers, s.tasks, s.nextTask);
    forall q | q in s'.workers ensures OwnsTask(q, s'.workers, s'.tasks) {
      assert OwnsTask(q, s.workers, s.tasks);
    }
    forall i | i in s'.tasks ensures TaskOk(c, i, s'.workers, s'.tasks, s'.nextTask) {
      assert TaskOk(c, i, s.workers, s.tasks, s.nextTask);
    }
    forall q | q in s'.evicted ensures EvictedOk(q, s'.evicted, s'.workers, s'.conns, s'.pending, s'.tasks) {
      assert EvictedOk(q, s.evicted, s.workers, s.conns, s.pending, s.tasks);
    }
  }

  lemma WorkerReceiveKeeps(c: Config, s: State, id: TaskId)
    requires Inv(c, s) && id in s.tasks && s.tasks[id].queue == [] && s.tasks[id].channel != []
    ensures Inv(c, WorkerReceive(s, id))
  {
    var w := s.tasks[id];
    assert TaskOk(c, id, s.workers, s.tasks, s.nextTask);
    SetTaskKeeps(c, s, id, w.(channel := w.channel[1..], queue := [Entry(w.channel[0], 1)]));
  }

  lemma TaskContents(c: Config, s: State, id: TaskId)
    requires Inv(c, s) && id in s.tasks
    ensures TaskOk(c, id, s.workers, s.tasks, s.nextTask)
  {
    assert TaskOk(c, id, s.workers, s.tasks, s.nextTask);
  }

  lemma LogsKeep(c: Config, s: State, sends: multiset<Entry>, responses: seq<Response>)
    requires Inv(c, s)
    ensures Inv(c, s.(sends := sends, responses := responses))
  {
  }

  lemma AfterCallIsForPeer(queue: seq<Entry>, result: SendResult, maxAttempts: nat, p: Pubkey)
    requires queue != [] && forall e :: e in queue ==> e.tx.peer == p
    ensures forall e :: e in AfterCall(queue, result, maxAttempts) ==> e.tx.peer == p
  {
    assert queue[0] in queue && forall e :: e in queue[1..] ==> e in queue;
  }

  lemma WorkerSendKeeps(c: Config, s: State, id: TaskId, result: SendResult)
    requires Inv(c, s) && id in s.tasks && s.tasks[id].queue != []
    ensures Inv(c, WorkerSend(c, s, id, result))
  {
    hide InvExcept, AfterCall, Answered;
    var w := s.tasks[id];
    var queue := AfterCall(w.queue, result, c.maxSendAttempts);
    TaskContents(c, s, id);
    AfterCallIsForPeer(w.queue, result, c.maxSendAttempts, w.peer);
    SetTaskKeeps(c, s, id, w.(queue := queue));
    var t := WorkerSend(c, s, id, result);
    LogsKeep(c, SetTask(s, id, w.(queue := queue)), t.sends, t.responses);
  }

  lemma UnblockKeeps(blocked: seq<Waiter>, parked: set<TaskId>, dials: map<TaskId, Dial>, n: nat)
    requires WaitersOk(blocked, parked, dials)
    ensures WaitersOk(StillBlocked(blocked, n), StillParked(blocked, parked, n), dials)
  {
    var k := Min(n, |blocked|);
    var tasks := WaiterTasks(blocked);
    assert WaiterTasks(blocked[k..]) == tasks[k..] && WaiterTasks(blocked[..k]) == tasks[..k];
    assert tasks == tasks[..k] + tasks[k..];
    forall w | w in blocked[k..] ensures WaiterOk(w, dials) {
      assert w in blocked;
    }
  }
}
