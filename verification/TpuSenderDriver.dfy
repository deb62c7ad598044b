/** The TPU sender driver: an event loop over a dozen maps that several handlers update in place.

    Every handler is proved against the function of `DriverState` that describes it. The
    runtime's task sets, channels and notifications are fields too: `txWorkerSet` holds the
    running workers, `parkedTasks` the connecting tasks that still wait for their notification. */
module TpuSender {
  import opened Types
  import opened Bags
  import opened Collections
  import opened OrphanConnections
  import opened ConnectionEvictions
  import opened StakedSorted
  import opened DriverState
  import opened DriverInvariant
  import opened DriverSteps
  import opened DriverClosing
  import opened DriverLoops

  ghost predicate MetaAgrees(meta: map<TaskId, Pubkey>, tasks: map<TaskId, Worker>) {
    meta.Keys == tasks.Keys && forall id :: id in meta ==> meta[id] == tasks[id].peer
  }

  lemma MetaEmpty()
    ensures MetaAgrees(map[], map[])
  {
  }

  lemma MetaGrows(meta: map<TaskId, Pubkey>, tasks: map<TaskId, Worker>, id: TaskId, w: Worker)
    requires MetaAgrees(meta, tasks)
    ensures MetaAgrees(meta[id := w.peer], tasks[id := w])
  {
  }

  lemma MetaUpdates(meta: map<TaskId, Pubkey>, tasks: map<TaskId, Worker>, id: TaskId, w: Worker)
    requires MetaAgrees(meta, tasks) && id in tasks && w.peer == tasks[id].peer
    ensures MetaAgrees(meta, tasks[id := w])
  {
  }

  lemma MetaShrinks(meta: map<TaskId, Pubkey>, tasks: map<TaskId, Worker>, id: TaskId)
    requires MetaAgrees(meta, tasks) && id in tasks
    ensures id in meta && meta[id] == tasks[id].peer
    ensures MetaAgrees(meta - {id}, tasks - {id})
  {
  }

  /** The sum the driver takes over the stakes of a connection's peers. */
  method SumStakes(peers: map<Pubkey, nat>) returns (total: nat)
    ensures total == TotalStake(peers)
  {
    total := 0;
    var rest := peers;
    while rest != map[]
      invariant total + TotalStake(rest) == TotalStake(peers)
      decreases |rest|
    {
      var p :| p in rest;
      StakeSplit(rest, p);
      assert (rest - {p}).Keys == rest.Keys - {p};
      total := total + rest[p];
      rest := rest - {p};
    }
  }

  lemma AttemptsInRange(c: Config, s: State)
    requires Inv(c, s)
    ensures forall id :: id in s.dials ==> 1 <= s.dials[id].attempt <= Max(1, c.maxConnectionAttempts)
  {
    forall id | id in s.dials ensures 1 <= s.dials[id].attempt <= Max(1, c.maxConnectionAttempts) {
      assert DialCurrent(c, id, s.dials, s.identity);
    }
  }

  lemma AddressIsTracked(c: Config, s: State, addr: SocketAddr)
    requires Inv(c, s) && addr in s.dialAddrs
    ensures s.dialAddrs[addr] in s.dials
  {
    assert AddrDials(addr, s.dials, s.dialAddrs);
  }

  class TpuSenderDriver {
    const config: Config
    const pendingConnectionEvictionSet: ConnectionEvictionSet
    const orphanConnectionSet: OrphanConnectionSet
    const activeStakedSortedRemotePeer: StakedSortedSet<Pubkey>
    const activeStakedSortedRemotePeerAddr: StakedSortedSet<SocketAddr>
    var txWorkerHandleMap: map<Pubkey, Handle>
    var txWorkerTaskMetaMap: map<TaskId, Pubkey>
    var txWorkerSet: map<TaskId, Worker>
    var txQueues: map<Pubkey, seq<Entry>>
    var connectionMap: map<SocketAddr, Connection>
    var connectingMeta: map<TaskId, Dial>
    var connectingRemotePeers: map<Pubkey, TaskId>
    var connectingRemotePeersAddr: map<SocketAddr, TaskId>
    var parkedTasks: set<TaskId>
    var connectingBlockedByEvictionList: seq<Waiter>
    var beingEvictedPeers: set<Pubkey>
    var lastPeerActivity: map<Pubkey, Instant>
    var connectionVersion: nat
    var nextTaskId: TaskId
    var identity: Pubkey
    var detachedTasks: seq<Drain>
    var responses: seq<Response>
    ghost var accepted: multiset<Txn>
    ghost var sends: multiset<Entry>

    ghost function Repr(): set<object> {
      {this, pendingConnectionEvictionSet, orphanConnectionSet, activeStakedSortedRemotePeer, activeStakedSortedRemotePeerAddr}
    }

    ghost function View(): State
      reads Repr()
    {
      State(txWorkerHandleMap, txWorkerSet, txQueues, connectionMap, connectingMeta, connectingRemotePeers,
            connectingRemotePeersAddr, parkedTasks, connectingBlockedByEvictionList, beingEvictedPeers,
            pendingConnectionEvictionSet.evictions, orphanConnectionSet.Contents, activeStakedSortedRemotePeer.peerStakeMap,
            activeStakedSortedRemotePeerAddr.peerStakeMap, lastPeerActivity, connectionVersion, nextTaskId, identity,
            responses, accepted, sends, detachedTasks)
    }

    /** The four index sets are sound and every running worker has its metadata. */
    ghost predicate Sound()
      reads Repr()
    {
      && pendingConnectionEvictionSet.Valid()
      && orphanConnectionSet.Valid()
      && activeStakedSortedRemotePeer.Valid()
      && activeStakedSortedRemotePeerAddr.Valid()
      && MetaAgrees(txWorkerTaskMetaMap, txWorkerSet)
    }

    ghost predicate Valid()
      reads Repr()
    {
      Sound() && Inv(config, View())
    }

    constructor (config: Config, identity: Pubkey)
      ensures Valid() && fresh(Repr())
      ensures this.config == config && View() == Initial(identity)
    {
      hide InvExcept, QueueAgrees, IndexAgrees, CountsAgree, Inverse, MetaAgrees;
      MetaEmpty();
      this.config, this.identity := config, identity;
      pendingConnectionEvictionSet := new ConnectionEvictionSet();
      orphanConnectionSet := new OrphanConnectionSet();
      activeStakedSortedRemotePeer := new StakedSortedSet<Pubkey>();
      activeStakedSortedRemotePeerAddr := new StakedSortedSet<SocketAddr>();
      txWorkerHandleMap, txWorkerTaskMetaMap, txWorkerSet, txQueues := map[], map[], map[], map[];
      connectionMap, connectingMeta, connectingRemotePeers, connectingRemotePeersAddr := map[], map[], map[], map[];
      parkedTasks, connectingBlockedByEvictionList, beingEvictedPeers, lastPeerActivity := {}, [], {}, map[];
      connectionVersion, nextTaskId, responses := 0, 0, [];
      accepted, sends, detachedTasks := multiset{}, multiset{}, [];
      new;
      InitialInv(config, identity);
    }

    // ---------------------------------------------------------------- transaction queues

    method Callback(r: Response)
      requires Sound()
      modifies this`responses
      ensures Sound() && View() == Report(old(View()), r)
    {
      responses := responses + [r];
    }

    method DropPeerQueuedTx(p: Pubkey, reason: DropReason)
      requires Sound()
      modifies this`responses, this`txQueues
      ensures Sound() && View() == DropQueued(old(View()), p, reason)
    {
      if p in txQueues {
        var dropped := txQueues[p];
        txQueues := txQueues - {p};
        Callback(TxDrop(p, reason, dropped));
      }
    }

    method DropSingleTx(p: Pubkey, e: Entry, reason: DropReason)
      requires Sound()
      modifies this`responses
      ensures Sound() && View() == Report(old(View()), TxDrop(p, reason, [e]))
    {
      Callback(TxDrop(p, reason, [e]));
    }

    method QueueTxOrDrop(p: Pubkey, e: Entry) returns (queued: bool)
      requires Sound()
      modifies this`responses, this`txQueues
      ensures Sound() && View() == QueueOrDrop(config, old(View()), p, e)
      ensures queued == HasRoom(config, old(View()), p)
    {
      var queuedLen := if p in txQueues then |txQueues[p]| else 0;
      if queuedLen >= config.capacity {
        DropSingleTx(p, e, RateLimited);
        return false;
      }
      txQueues := txQueues[p := Lookup(txQueues, p, []) + [e]];
      queued := true;
    }

    method UnreachablePeer(p: Pubkey)
      requires Sound()
      modifies this`responses, this`txQueues
      ensures Sound() && View() == DropQueued(old(View()), p, RemotePeerUnreachable)
    {
      DropPeerQueuedTx(p, RemotePeerUnreachable);
    }

    method HasConnectionCapacity() returns (r: bool)
      ensures r == (|connectionMap| < config.maxConnections)
    {
      r := |connectionMap| < config.maxConnections;
    }

    // ---------------------------------------------------------------- connecting

    method TakeQueue(p: Pubkey) returns (queue: seq<Entry>)
      requires Sound()
      modifies this`txQueues
      ensures Sound() && queue == old(Lookup(txQueues, p, []))
      ensures View() == old(View()).(queues := old(txQueues) - {p})
    {
      queue := Lookup(txQueues, p, []);
      txQueues := txQueues - {p};
    }

    method NewTaskId() returns (id: TaskId)
      requires Sound()
      modifies this`nextTaskId
      ensures Sound() && id == old(nextTaskId) && View() == old(View()).(nextTask := id + 1)
    {
      id := nextTaskId;
      nextTaskId := id + 1;
    }

    /** Starts a worker task. */
    method SpawnWorker(w: Worker) returns (id: TaskId)
      requires Sound()
      modifies this`nextTaskId, this`txWorkerSet, this`txWorkerTaskMetaMap
      ensures Sound() && id == old(nextTaskId)
      ensures View() == old(View()).(tasks := old(txWorkerSet)[id := w], nextTask := id + 1)
    {
      hide QueueAgrees, IndexAgrees, CountsAgree, Inverse, MetaAgrees;
      id := NewTaskId();
      MetaGrows(txWorkerTaskMetaMap, txWorkerSet, id, w);
      txWorkerSet := txWorkerSet[id := w];
      txWorkerTaskMetaMap := txWorkerTaskMetaMap[id := w.peer];
    }

    /** Records the worker of `p` over the connection at `addr`. */
    method AddWorker(p: Pubkey, addr: SocketAddr, stake: nat) returns (peers: map<Pubkey, nat>)
      requires Sound() && addr in connectionMap
      modifies this
      ensures Sound()
      ensures var s, conn := old(View()), old(connectionMap[addr]);
              && peers == conn.peers[p := stake]
              && View() == s.(workers := s.workers[p := Handle(addr, conn.version, s.nextTask)],
                              tasks := s.tasks[s.nextTask := Worker(p, addr, [], Lookup(s.queues, p, []), false)],
                              nextTask := s.nextTask + 1,
                              queues := s.queues - {p},
                              conns := s.conns[addr := conn.(peers := peers)])
    {
      hide QueueAgrees, IndexAgrees, CountsAgree, Inverse, MetaAgrees;
      var conn := connectionMap[addr];
      var queue := TakeQueue(p);
      var id := SpawnWorker(Worker(p, addr, [], queue, false));
      txWorkerHandleMap := txWorkerHandleMap[p := Handle(addr, conn.version, id)];
      peers := conn.peers[p := stake];
      connectionMap := connectionMap[addr := conn.(peers := peers)];
    }

    /** Records the stakes of a new worker's peer and connection, which is no orphan any more. */
    method RecordStakes(p: Pubkey, addr: SocketAddr, version: nat, stake: nat, total: nat)
      requires Sound()
      modifies Repr() - {this, pendingConnectionEvictionSet}
      ensures Sound()
      ensures var s := old(View());
              View() == s.(addrStakes := s.addrStakes[addr := total], peerStakes := s.peerStakes[p := stake],
                           orphans := s.orphans - {ConnectionId(addr, version)})
    {
      hide QueueAgrees, IndexAgrees, CountsAgree, Inverse, MetaAgrees;
      var _ := activeStakedSortedRemotePeerAddr.Insert(addr, total);
      var _ := activeStakedSortedRemotePeer.Insert(p, stake);
      var _ := orphanConnectionSet.Remove(addr, version);
    }

    method InstallWorker(p: Pubkey, addr: SocketAddr, stake: nat)
      requires Sound()
      modifies Repr()
      ensures Sound() && View() == DriverState.InstallWorker(old(View()), p, addr, stake)
    {
      hide QueueAgrees, IndexAgrees, CountsAgree, Inverse, MetaAgrees;
      if p in txWorkerHandleMap {
        return;
      }
      if addr !in connectionMap {
        UnreachablePeer(p);
        return;
      }
      var version := connectionMap[addr].version;
      var peers := AddWorker(p, addr, stake);
      var total := SumStakes(peers);
      RecordStakes(p, addr, version, stake, total);
    }

    method JoinConnecting(p: Pubkey, id: TaskId)
      requires Sound() && id in connectingMeta
      modifies this`connectingMeta, this`connectingRemotePeers
      ensures Sound() && View() == JoinDial(old(View()), p, id)
    {
      connectingMeta := connectingMeta[id := connectingMeta[id].(peers := connectingMeta[id].peers + [p])];
      connectingRemotePeers := connectingRemotePeers[p := id];
    }

    /** Makes the attempt `id` wait for its turn. */
    method WaitForEviction(addr: SocketAddr, id: TaskId)
      requires Sound()
      modifies this`connectingBlockedByEvictionList, this`parkedTasks
      ensures Sound()
      ensures View() == old(View()).(blocked := old(View()).blocked + [Waiter(addr, id)], parked := old(View()).parked + {id})
    {
      connectingBlockedByEvictionList := connectingBlockedByEvictionList + [Waiter(addr, id)];
      parkedTasks := parkedTasks + {id};
    }

    /** Spawns the connecting task with its metadata. */
    method SpawnConnectingTask(meta: Dial) returns (id: TaskId)
      requires Sound()
      modifies this`nextTaskId, this`connectingMeta
      ensures Sound() && id == old(nextTaskId)
      ensures View() == old(View()).(nextTask := id + 1, dials := old(connectingMeta)[id := meta])
    {
      id := NewTaskId();
      connectingMeta := connectingMeta[id := meta];
    }

    method IndexConnecting(p: Pubkey, addr: SocketAddr, id: TaskId)
      requires Sound()
      modifies this`connectingRemotePeers, this`connectingRemotePeersAddr
      ensures Sound()
      ensures View() == old(View()).(dialPeers := old(connectingRemotePeers)[p := id], dialAddrs := old(connectingRemotePeersAddr)[addr := id])
    {
      connectingRemotePeers := connectingRemotePeers[p := id];
      connectingRemotePeersAddr := connectingRemotePeersAddr[addr := id];
    }

    method StartConnecting(p: Pubkey, addr: SocketAddr, attempt: nat)
      requires Sound()
      modifies this
      ensures Sound() && View() == StartDial(config, old(View()), p, addr, attempt)
    {
      hide QueueAgrees, IndexAgrees, CountsAgree, Inverse, MetaAgrees;
      var room := HasConnectionCapacity();
      var id := SpawnConnectingTask(Dial(identity, [p], addr, attempt));
      if !room {
        WaitForEviction(addr, id);
      }
      IndexConnecting(p, addr, id);
    }

    method SpawnConnecting(p: Pubkey, attempt: nat, dest: Option<SocketAddr>, stake: nat)
      requires Valid() && 1 <= attempt <= Max(1, config.maxConnectionAttempts)
      modifies Repr()
      ensures Valid() && View() == DriverState.SpawnConnecting(config, old(View()), p, attempt, dest, stake)
    {
      hide InvExcept, Sound, DriverState.InstallWorker, JoinDial, StartDial;
      SpawnConnectingKeeps(config, View(), p, attempt, dest, stake);
      if p in connectingRemotePeers || p in beingEvictedPeers || p in txWorkerHandleMap {
        return;
      }
      if dest.None? {
        UnreachablePeer(p);
        return;
      }
      var addr := dest.value;
      var pending := HasPendingEviction(addr);
      if pending {
        return;
      }
      if addr in connectionMap {
        InstallWorker(p, addr, stake);
        return;
      }
      if addr !in connectingRemotePeersAddr {
        StartConnecting(p, addr, attempt);
        return;
      }
      var id := connectingRemotePeersAddr[addr];
      AddressIsTracked(config, View(), addr);
      if id !in connectingMeta {
        // The indexes agree, so there is no address whose attempt has lost its metadata.
        assert false;
      }
      JoinConnecting(p, id);
    }

    method HasPendingEviction(addr: SocketAddr) returns (r: bool)
      requires Sound()
      ensures r == PendingAt(View(), addr)
    {
      r := pendingConnectionEvictionSet.ContainsSocketAddr(addr);
    }

    /** The three loops of `HandleConnectingResult`. */
    method InstallWorkers(peers: seq<Pubkey>, addr: SocketAddr, ans: Answers)
      requires Sound()
      modifies Repr()
      ensures Sound() && View() == InstallAll(old(View()), peers, addr, ans)
    {
      for i := 0 to |peers|
        invariant Sound()
        invariant InstallAll(View(), peers[i..], addr, ans) == old(InstallAll(View(), peers, addr, ans))
      {
        assert peers[i..][0] == peers[i] && peers[i..][1..] == peers[i + 1..];
        InstallWorker(peers[i], addr, ans.stake(peers[i]));
      }
    }

    method UnreachablePeers(peers: seq<Pubkey>)
      requires Sound()
      modifies this`responses, this`txQueues
      ensures Sound() && View() == UnreachableAll(old(View()), peers)
    {
      for i := 0 to |peers|
        invariant Sound()
        invariant UnreachableAll(View(), peers[i..]) == old(UnreachableAll(View(), peers))
      {
        assert peers[i..][0] == peers[i] && peers[i..][1..] == peers[i + 1..];
        UnreachablePeer(peers[i]);
      }
    }

    method RetryConnecting(p: Pubkey, dial: Dial, ans: Answers)
      requires Valid() && 1 <= dial.attempt < config.maxConnectionAttempts
      modifies Repr()
      ensures Valid() && View() == RetryPeer(config, old(View()), p, dial, ans)
    {
      hide InvExcept, Sound, DriverState.SpawnConnecting;
      RetryPeerKeeps(config, View(), p, dial, ans);
      var latest := ans.dest(p);
      if latest.None? {
        UnreachablePeer(p);
        return;
      }
      var attempt := if latest.value != dial.addr then 1 else dial.attempt + 1;
      SpawnConnecting(p, attempt, ans.again(p), ans.stake(p));
    }

    method RetryPeers(peers: seq<Pubkey>, dial: Dial, ans: Answers)
      requires Valid() && 1 <= dial.attempt < config.maxConnectionAttempts
      modifies Repr()
      ensures Valid() && View() == RetryAll(config, old(View()), peers, dial, ans)
    {
      hide Valid;
      for i := 0 to |peers|
        invariant Valid()
        invariant RetryAll(config, View(), peers[i..], dial, ans) == old(RetryAll(config, View(), peers, dial, ans))
      {
        assert peers[i..][0] == peers[i] && peers[i..][1..] == peers[i + 1..];
        RetryConnecting(peers[i], dial, ans);
      }
    }

    /** Clears the peers of a finished attempt from the index of connecting peers. */
    method ForgetConnectingPeers(peers: seq<Pubkey>)
      requires Sound()
      modifies this`connectingRemotePeers
      ensures Sound() && View() == old(View()).(dialPeers := old(View()).dialPeers - Elements(peers))
    {
      for i := 0 to |peers|
        invariant connectingRemotePeers == old(connectingRemotePeers) - Elements(peers[..i])
      {
        assert peers[..i + 1] == peers[..i] + [peers[i]];
        assert Elements(peers[..i + 1]) == Elements(peers[..i]) + {peers[i]};
        connectingRemotePeers := connectingRemotePeers - {peers[i]};
      }
      assert peers[..|peers|] == peers;
    }

    method ForgetConnecting(id: TaskId)
      requires Sound() && id in connectingMeta
      modifies this`connectingMeta, this`connectingRemotePeers, this`connectingRemotePeersAddr
      ensures Sound() && View() == EndDial(old(View()), id)
    {
      hide QueueAgrees, IndexAgrees, CountsAgree, Inverse, MetaAgrees;
      var dial := connectingMeta[id];
      connectingMeta := connectingMeta - {id};
      ForgetConnectingPeers(dial.peers);
      connectingRemotePeersAddr := connectingRemotePeersAddr - {dial.addr};
    }

    /** Registers an established connection under a fresh version. */
    method AddConnection(addr: SocketAddr)
      requires Sound()
      modifies this`connectionMap, this`connectionVersion
      ensures Sound() && View() == Connect(old(View()), addr)
    {
      connectionMap := connectionMap[addr := Connection(connectionVersion, map[])];
      connectionVersion := connectionVersion + 1;
    }

    method HandleConnectingResult(id: TaskId, outcome: ConnectOutcome, ans: Answers)
      requires Valid() && id in connectingMeta && id !in parkedTasks
      modifies Repr()
      ensures Valid() && View() == DriverState.HandleConnectingResult(config, old(View()), id, outcome, ans)
    {
      hide InvExcept, Sound, EndDial, Connect;
      ConnectingResultKeeps(config, View(), id, outcome, ans);
      EndedDial(config, View(), id);
      var dial := connectingMeta[id];
      ForgetConnecting(id);
      if dial.identity != identity {
        // Excluded: an identity update takes every attempt with it.
        assert false;
      }
      match outcome
      case Connected =>
        AddConnection(dial.addr);
        InstallWorkers(dial.peers, dial.addr, ans);
      case ConnectionFailed =>
        if dial.attempt < config.maxConnectionAttempts {
          RetryPeers(dial.peers, dial, ans);
        } else {
          UnreachablePeers(dial.peers);
        }
      case _ => UnreachablePeers(dial.peers);
    }

    // ---------------------------------------------------------------- accepting transactions

    method NoteArrival(tx: Txn, now: Instant)
      requires Sound()
      modifies this`lastPeerActivity, this`accepted
      ensures Sound()
      ensures View() == old(View()).(lastActivity := old(lastPeerActivity)[tx.peer := now], accepted := old(accepted) + multiset{tx})
    {
      lastPeerActivity := lastPeerActivity[tx.peer := now];
      accepted := accepted + multiset{tx};
    }

    /** Offers a transaction to the channel of a worker. */
    method TrySend(id: TaskId, tx: Txn) returns (sent: bool)
      requires Sound() && id in txWorkerSet
      modifies this`txWorkerSet
      ensures Sound() && sent == (|old(txWorkerSet)[id].channel| < config.capacity)
      ensures View() == if sent then SetTask(old(View()), id, old(txWorkerSet)[id].(channel := old(txWorkerSet)[id].channel + [tx])) else old(View())
    {
      hide QueueAgrees, IndexAgrees, CountsAgree, Inverse, MetaAgrees;
      var w := txWorkerSet[id];
      sent := |w.channel| < config.capacity;
      if sent {
        MetaUpdates(txWorkerTaskMetaMap, txWorkerSet, id, w.(channel := w.channel + [tx]));
        txWorkerSet := txWorkerSet[id := w.(channel := w.channel + [tx])];
      }
    }

    method AcceptTx(tx: Txn, now: Instant, dest: Option<SocketAddr>, stake: nat)
      requires Valid()
      modifies Repr()
      ensures Valid() && View() == DriverState.AcceptTx(config, old(View()), tx, now, dest, stake)
    {
      hide InvExcept, Sound, DriverState.SpawnConnecting, DriverState.QueueOrDrop, DriverState.HasRoom, Report, SetTask;
      AcceptTxKeeps(config, View(), tx, now, dest, stake);
      ghost var before := View();
      var p := tx.peer;
      NoteArrival(tx, now);
      NotingKeeps(config, before, lastPeerActivity, accepted);
      if |tx.wire| > TransactionDataSizeLimit(tx.wire) && !config.allowAnySize {
        DropSingleTx(p, Entry(tx, 1), InvalidPacketSize);
        return;
      }
      if p in txWorkerHandleMap {
        WorkerTask(config, View(), p);
        var id := txWorkerHandleMap[p].task;
        if id !in txWorkerSet {
          // A closed channel: its worker has ended but not been handled yet.
          assert false;
        }
        var sent := TrySend(id, tx);
        if !sent {
          DropSingleTx(p, Entry(tx, 1), RateLimited);
        }
        return;
      }
      QueueOrDropKeeps(config, View(), p, Entry(tx, 1));
      var queued := QueueTxOrDrop(p, Entry(tx, 1));
      if queued {
        SpawnConnecting(p, 1, dest, stake);
      }
    }

    // ---------------------------------------------------------------- finished workers

    method UnblockEvictionWaitingConnection()
      requires Sound()
      modifies this`connectingBlockedByEvictionList, this`parkedTasks
      ensures Sound()
      ensures View() == old(View()).(blocked := StillBlocked(old(connectingBlockedByEvictionList), 1),
                                     parked := StillParked(old(connectingBlockedByEvictionList), old(parkedTasks), 1))
    {
      hide QueueAgrees, IndexAgrees, CountsAgree, Inverse, MetaAgrees;
      if connectingBlockedByEvictionList == [] {
        assert Elements(WaiterTasks(connectingBlockedByEvictionList[..0])) == {};
        return;
      }
      var waiter := connectingBlockedByEvictionList[0];
      assert WaiterTasks(connectingBlockedByEvictionList[..1]) == [waiter.task];
      connectingBlockedByEvictionList := connectingBlockedByEvictionList[1..];
      parkedTasks := parkedTasks - {waiter.task};
    }

    /** Replaces the peers of a connection and records their total stake. */
    method SetPeers(addr: SocketAddr, peers: map<Pubkey, nat>)
      requires Sound() && addr in connectionMap
      modifies this`connectionMap, activeStakedSortedRemotePeerAddr
      ensures Sound()
      ensures var s := old(View());
              View() == s.(conns := s.conns[addr := s.conns[addr].(peers := peers)], addrStakes := s.addrStakes[addr := TotalStake(peers)])
    {
      hide QueueAgrees, IndexAgrees, CountsAgree, Inverse, MetaAgrees;
      connectionMap := connectionMap[addr := connectionMap[addr].(peers := peers)];
      var total := SumStakes(peers);
      var _ := activeStakedSortedRemotePeerAddr.Insert(addr, total);
    }

    /** Closes a connection that was to be evicted and lets one waiter go on. */
    method CloseEvicted(key: ConnectionId)
      requires Sound()
      modifies Repr()
      ensures Sound()
      ensures var s := old(View());
              View() == s.(conns := s.conns - {key.addr}, pending := s.pending - {key}, addrStakes := s.addrStakes - {key.addr},
                           blocked := StillBlocked(s.blocked, 1), parked := StillParked(s.blocked, s.parked, 1))
    {
      hide QueueAgrees, IndexAgrees, CountsAgree, Inverse, MetaAgrees, StillBlocked, StillParked;
      connectionMap := connectionMap - {key.addr};
      var _ := pendingConnectionEvictionSet.Remove(key);
      UnblockEvictionWaitingConnection();
      var _ := activeStakedSortedRemotePeerAddr.Remove(key.addr);
    }

    method AddOrphan(key: ConnectionId, now: Instant)
      requires Sound()
      modifies orphanConnectionSet
      ensures Sound()
      ensures var s := old(View()); View() == s.(orphans := if key !in s.orphans then s.orphans[key := now] else s.orphans)
    {
      hide QueueAgrees, IndexAgrees, CountsAgree, Inverse, MetaAgrees;
      orphanConnectionSet.Insert(key, now);
    }

    method IsPendingEviction(key: ConnectionId) returns (r: bool)
      ensures r == (key in View().pending)
    {
      r := pendingConnectionEvictionSet.Contains(key);
    }

    method RemoveWorkerFromActiveConnection(addr: SocketAddr, p: Pubkey, version: nat, now: Instant)
      requires Sound()
      modifies Repr()
      ensures Sound() && View() == Disconnect(old(View()), addr, p, version, now)
    {
      hide Sound, StillBlocked, StillParked;
      if addr !in connectionMap || connectionMap[addr].version != version {
        return;
      }
      ghost var s := View();
      var peers := connectionMap[addr].peers - {p};
      var key := ConnectionId(addr, version);
      SetPeers(addr, peers);
      var marked := IsPendingEviction(key);
      if peers == map[] {
        if marked {
          CloseEvicted(key);
          assert View().conns == s.conns - {addr};
          assert View().addrStakes == s.addrStakes - {addr};
        } else {
          AddOrphan(key, now);
        }
      }
    }

    /** Takes a finished worker out of the worker set, with what its channel and queue still hold. */
    method TakeWorker(id: TaskId) returns (p: Pubkey, w: Worker)
      requires Sound() && id in txWorkerSet
      modifies this`txWorkerSet, this`txWorkerTaskMetaMap
      ensures Sound() && w == old(txWorkerSet)[id] && p == w.peer
      ensures View() == old(View()).(tasks := old(txWorkerSet) - {id})
    {
      hide QueueAgrees, IndexAgrees, CountsAgree, Inverse, MetaAgrees;
      MetaShrinks(txWorkerTaskMetaMap, txWorkerSet, id);
      p, w := txWorkerTaskMetaMap[id], txWorkerSet[id];
      txWorkerTaskMetaMap := txWorkerTaskMetaMap - {id};
      txWorkerSet := txWorkerSet - {id};
    }

    /** Drops the handle, the stake and the marks of a peer whose worker has ended. */
    method ForgetPeer(p: Pubkey) returns (evicting: bool)
      requires Sound()
      modifies Repr()
      ensures Sound() && evicting == (p in old(beingEvictedPeers))
      ensures var s := old(View());
              View() == s.(peerStakes := s.peerStakes - {p}, evicted := s.evicted - {p}, workers := s.workers - {p})
    {
      hide QueueAgrees, IndexAgrees, CountsAgree, Inverse, MetaAgrees;
      var _ := activeStakedSortedRemotePeer.Remove(p);
      evicting := p in beingEvictedPeers;
      beingEvictedPeers := beingEvictedPeers - {p};
      txWorkerHandleMap := txWorkerHandleMap - {p};
    }

    method SetActivity(activity: map<Pubkey, Instant>)
      requires Sound()
      modifies this`lastPeerActivity
      ensures Sound() && View() == old(View()).(lastActivity := activity)
    {
      lastPeerActivity := activity;
    }

    /** Takes a finished worker off its connection. Its handle exists and names the connection
        that is still at its address: the two mismatch branches cannot be reached. */
    method RetireFinished(id: TaskId, now: Instant) returns (p: Pubkey, w: Worker, evicting: bool)
      requires Valid() && id in txWorkerSet
      modifies Repr()
      ensures Valid()
      ensures CanRetire(config, old(View()), id)
      ensures w == old(txWorkerSet)[id] && p == w.peer && evicting == (p in old(beingEvictedPeers))
      ensures View() == RetireWorker(old(View()), id, now) && p !in txWorkerHandleMap
    {
      hide InvExcept, Sound, Disconnect;
      ghost var s := View();
      TaskIsServed(config, s, id);
      RetireKeeps(config, s, id, now);
      p, w := TakeWorker(id);
      if p !in txWorkerHandleMap {
        assert false;
      }
      var handle := txWorkerHandleMap[p];
      evicting := ForgetPeer(p);
      SetActivity(lastPeerActivity - {p});
      if handle.addr in connectionMap {
        if connectionMap[handle.addr].version != handle.version {
          assert false;
        }
        RemoveWorkerFromActiveConnection(handle.addr, p, handle.version, now);
      }
    }

    /** Queues what a finished worker left, in order, dropping what finds no room. */
    method RescueAll(p: Pubkey, entries: seq<Entry>)
      requires Sound()
      modifies this`responses, this`txQueues
      ensures Sound() && View() == QueueAll(config, old(View()), p, entries)
    {
      hide QueueAll, QueueOrDrop, Sound;
      QueueNothing(config, View(), p, entries);
      for i := 0 to |entries|
        invariant Sound()
        invariant View() == QueueAll(config, old(View()), p, entries[..i])
      {
        QueueOneMore(config, old(View()), p, entries, i);
        var _ := QueueTxOrDrop(p, entries[i]);
      }
      assert entries[..|entries|] == entries;
    }

    method HandleWorkerResult(id: TaskId, versionMismatch: bool, now: Instant, ans: Answers)
      requires Valid() && id in txWorkerSet
      modifies Repr()
      ensures Valid() && CanRetire(config, old(View()), id)
      ensures View() == DriverState.HandleWorkerResult(config, old(View()), id, versionMismatch, now, ans)
    {
      hide InvExcept, Sound, DriverState.SpawnConnecting, QueueAll, Disconnect;
      ghost var s := View();
      TaskIsServed(config, s, id);
      WorkerResultKeeps(config, s, id, versionMismatch, now, ans);
      LeftoverIsForPeer(config, s, id);
      var p, w, evicting := RetireFinished(id, now);
      QueueAllKeeps(config, View(), p, Leftover(w));
      RescueAll(p, Leftover(w));
      if versionMismatch {
        UnreachablePeer(p);
      } else if evicting {
        DropPeerQueuedTx(p, RemotePeerBeingEvicted);
      } else if p in txQueues {
        NotingKeeps(config, View(), lastPeerActivity[p := now], accepted);
        SetActivity(lastPeerActivity[p := now]);
        SpawnConnecting(p, 1, ans.dest(p), ans.stake(p));
      }
    }

    // ---------------------------------------------------------------- eviction

    /** The connection whose peers have the least stake in total. */
    method LeastStakedConnection() returns (least: Option<SocketAddr>)
      requires Sound()
      ensures least.None? <==> connectionMap == map[]
      ensures least.Some? ==> LeastStaked(View(), least.value)
    {
      least := None;
      var best := 0;
      var rest := connectionMap.Keys;
      while rest != {}
        invariant rest <= connectionMap.Keys
        invariant least.None? ==> rest == connectionMap.Keys
        invariant least.Some? ==> least.value in connectionMap && best == TotalStake(connectionMap[least.value].peers)
        invariant least.Some? ==> forall a :: a in connectionMap && a !in rest ==> best <= TotalStake(connectionMap[a].peers)
        decreases |rest|
      {
        var a :| a in rest;
        var total := SumStakes(connectionMap[a].peers);
        if least.None? || total < best {
          least, best := Some(a), total;
        }
        rest := rest - {a};
      }
    }

    method NotifyCancel(id: TaskId)
      requires Sound() && id in txWorkerSet
      modifies this`txWorkerSet
      ensures Sound()
      ensures View() == old(View()).(tasks := old(txWorkerSet)[id := old(txWorkerSet)[id].(cancelled := true)])
    {
      hide QueueAgrees, IndexAgrees, CountsAgree, Inverse, MetaAgrees;
      MetaUpdates(txWorkerTaskMetaMap, txWorkerSet, id, txWorkerSet[id].(cancelled := true));
      txWorkerSet := txWorkerSet[id := txWorkerSet[id].(cancelled := true)];
    }

    /** Tells the workers behind the handles to stop; `peers` are their peers. */
    method NotifyAll(handles: seq<Handle>, ghost peers: seq<Pubkey>)
      requires Sound() && TaskAgreement(config, txWorkerHandleMap, txWorkerSet, nextTaskId)
      requires HandlesOf(handles, peers, txWorkerHandleMap)
      modifies this`txWorkerSet
      ensures Sound() && View() == old(View()).(tasks := CancelTasks(old(txWorkerSet), Elements(peers)))
    {
      hide Sound, CancelTasks, TaskAgreement;
      ghost var tasks := txWorkerSet;
      CancelNobody(tasks, peers);
      for i := 0 to |handles|
        invariant Sound()
        invariant txWorkerSet == CancelTasks(tasks, Elements(peers[..i]))
      {
        CancelOneMore(config, txWorkerHandleMap, tasks, nextTaskId, peers, i);
        NotifyCancel(handles[i].task);
      }
      assert peers[..|peers|] == peers;
    }

    /** Marks the peers of one connection as being evicted and collects their handles. */
    method MarkCompanions(companions: set<Pubkey>, handles: seq<Handle>, ghost peers: seq<Pubkey>)
      returns (handles': seq<Handle>, ghost peers': seq<Pubkey>)
      requires Sound() && HandlesOf(handles, peers, txWorkerHandleMap)
      requires companions <= txWorkerHandleMap.Keys
      modifies this`beingEvictedPeers
      ensures Sound() && HandlesOf(handles', peers', txWorkerHandleMap) && Elements(peers') == Elements(peers) + companions
      ensures View() == old(View()).(evicted := old(beingEvictedPeers) + companions)
    {
      hide QueueAgrees, IndexAgrees, CountsAgree, Inverse, MetaAgrees;
      var order := ListSet(companions);
      handles', peers' := handles, peers;
      for i := 0 to |order|
        invariant HandlesOf(handles', peers', txWorkerHandleMap) && peers' == peers + order[..i]
        invariant beingEvictedPeers == old(beingEvictedPeers) + Elements(order[..i])
      {
        var q := order[i];
        assert q in order;
        OneMore(order, i);
        beingEvictedPeers := beingEvictedPeers + {q};
        handles', peers' := handles' + [txWorkerHandleMap[q]], peers' + [q];
      }
      assert order[..|order|] == order;
      assert Elements(order) == companions;
    }

    method InsertPending(key: ConnectionId)
      requires Sound()
      modifies pendingConnectionEvictionSet
      ensures Sound() && View() == old(View()).(pending := old(View()).pending + {key})
    {
      hide QueueAgrees, IndexAgrees, CountsAgree, Inverse, MetaAgrees;
      var _ := pendingConnectionEvictionSet.Insert(key);
    }

    /** Marks the connection of one planned peer and all its peers, after `done` of the plan. `s` is
        the state the eviction started from, of which only the two sets of evictions change here. */
    method PlanPeer(p: Pubkey, handles: seq<Handle>, ghost peers: seq<Pubkey>, ghost s: State, ghost done: set<Pubkey>)
      returns (handles': seq<Handle>, ghost peers': seq<Pubkey>)
      requires Sound() && Inv(config, s)
      requires View() == s.(pending := s.pending + Targets(s, done), evicted := s.evicted + Companions(s, done))
      requires HandlesOf(handles, peers, txWorkerHandleMap) && Elements(peers) == Companions(s, done)
      modifies this`beingEvictedPeers, pendingConnectionEvictionSet
      ensures Sound() && HandlesOf(handles', peers', txWorkerHandleMap) && Elements(peers') == Companions(s, done + {p})
      ensures View() == s.(pending := s.pending + Targets(s, done + {p}), evicted := s.evicted + Companions(s, done + {p}))
    {
      hide InvExcept, Sound, Companions, Targets, HandlesOf;
      PlannedPeer(config, s, p);
      PlanOneMore(s, done, p);
      if p !in txWorkerHandleMap {
        return handles, peers;
      }
      var handle := txWorkerHandleMap[p];
      if handle.addr !in connectionMap {
        assert false;
      }
      var conn := connectionMap[handle.addr];
      if conn.version != handle.version {
        assert false;
      }
      InsertPending(ConnectionId(handle.addr, conn.version));
      handles', peers' := MarkCompanions(conn.peers.Keys, handles, peers);
    }

    method PlanPeers(plan: seq<Pubkey>) returns (handles: seq<Handle>, ghost peers: seq<Pubkey>)
      requires Valid()
      modifies this`beingEvictedPeers, pendingConnectionEvictionSet
      ensures Sound() && HandlesOf(handles, peers, txWorkerHandleMap)
      ensures Elements(peers) == Companions(old(View()), Elements(plan))
      ensures var s := old(View());
              View() == s.(pending := s.pending + Targets(s, Elements(plan)), evicted := s.evicted + Companions(s, Elements(plan)))
    {
      hide InvExcept, Sound, Companions, Targets, HandlesOf;
      ghost var s := View();
      handles, peers := [], [];
      PlanNobody(s, plan);
      for i := 0 to |plan|
        invariant Sound() && HandlesOf(handles, peers, txWorkerHandleMap)
        invariant Elements(peers) == Companions(s, Elements(plan[..i]))
        invariant View() == s.(pending := s.pending + Targets(s, Elements(plan[..i])), evicted := s.evicted + Companions(s, Elements(plan[..i])))
      {
        OneMore(plan, i);
        handles, peers := PlanPeer(plan[i], handles, peers, s, Elements(plan[..i]));
      }
      assert plan[..|plan|] == plan;
    }

    /** Evicts the connections of the planned peers with all the peers on them. */
    method EvictPeers(plan: seq<Pubkey>)
      requires Valid()
      modifies Repr()
      ensures Valid() && View() == DriverState.Evict(old(View()), Elements(plan))
    {
      hide InvExcept, Sound, Companions, Targets, HandlesOf, TaskAgreement;
      EvictKeeps(config, View(), Elements(plan));
      TasksAgree(config, View());
      var handles, peers := PlanPeers(plan);
      NotifyAll(handles, peers);
    }

    method EvictionCountRequired() returns (n: nat)
      requires Sound()
      ensures n == EvictionsRequired(View())
    {
      var pending := pendingConnectionEvictionSet.Len();
      n := Saturating(|connectingBlockedByEvictionList| - pending);
    }

    method NothingPending() returns (r: bool)
      ensures r == (View().pending == {})
    {
      r := pendingConnectionEvictionSet.evictions == {};
    }

    /** `plan` is the answer of the eviction strategy, whatever it is. */
    method DoEvictionIfRequired(plan: seq<Pubkey>) returns (fallback: Option<SocketAddr>)
      requires Valid()
      modifies Repr()
      ensures Valid()
      ensures View() == DriverState.DoEvictionIfRequired(old(View()), plan, fallback)
      ensures fallback.Some? ==> LeastStaked(old(View()), fallback.value)
      ensures EvictionsRequired(old(View())) > 0 && plan == [] && old(View()).pending == {} && fallback.None? ==> old(connectionMap) == map[]
    {
      hide InvExcept, Sound, Companions, Targets, EvictionsRequired, DriverState.Evict;
      fallback := None;
      DoEvictionKeeps(config, View(), plan, None);
      var required := EvictionCountRequired();
      if required == 0 {
        return;
      }
      var none := NothingPending();
      if plan != [] || !none {
        EvictPeers(plan);
        return;
      }
      fallback := LeastStakedConnection();
      if fallback.Some? {
        var peers := ListSet(connectionMap[fallback.value].peers.Keys);
        assert Elements(peers) == connectionMap[fallback.value].peers.Keys;
        EvictPeers(peers);
      }
    }

    // ---------------------------------------------------------------- address changes

    /** Looks at one peer of a batch of changed addresses. */
    method ChangePeer(p: Pubkey, ans: Answers, ghost done: set<Pubkey>, ghost s: State)
      requires Sound() && Inv(config, s) && View() == DriverState.HandleAddrChange(s, done, ans)
      modifies Repr()
      ensures Sound() && View() == DriverState.HandleAddrChange(s, done + {p}, ans)
    {
      hide InvExcept, Sound, CancelTasks, MovedPeers, VanishedIds;
      ChangeOneMore(s, done, p, ans);
      if p !in txWorkerHandleMap {
        return;
      }
      var handle := txWorkerHandleMap[p];
      var newAddr := ans.dest(p);
      if newAddr.None? || newAddr.value != handle.addr {
        TasksAgree(config, s);
        CancelOne(config, s.workers, s.tasks, s.nextTask, MovedPeers(s, done, ans), p);
        NotifyCancel(handle.task);
        if newAddr.None? {
          InsertPending(ConnectionId(handle.addr, handle.version));
        }
        assert View().pending == s.pending + VanishedIds(s, done + {p}, ans);
        assert View().tasks == CancelTasks(s.tasks, MovedPeers(s, done + {p}, ans));
      }
    }

    method HandleRemotePeerAddrChange(changed: set<Pubkey>, ans: Answers)
      requires Valid()
      modifies Repr()
      ensures Valid() && View() == DriverState.HandleAddrChange(old(View()), changed, ans)
    {
      hide InvExcept, Sound, DriverState.HandleAddrChange;
      ghost var s := View();
      AddrChangeKeeps(config, s, changed, ans);
      ChangeNobody(s, ans);
      var rest := changed;
      assert changed - rest == {};
      while rest != {}
        invariant rest <= changed
        invariant Sound() && View() == DriverState.HandleAddrChange(s, changed - rest, ans)
        decreases |rest|
      {
        var p :| p in rest;
        ChangePeer(p, ans, changed - rest, s);
        assert changed - (rest - {p}) == changed - rest + {p};
        rest := rest - {p};
      }
      assert changed - rest == changed;
    }

    // ---------------------------------------------------------------- the orphan sweep

    /** Closes one popped orphan. The three stale-entry tests of the sweep never hold. */
    method CloseOrphan(k: ConnectionId, ghost s: State, ghost gone: set<ConnectionId>)
      requires Sound() && OrphansExact(s.orphans, s.conns, {})
      requires k in s.orphans && k !in gone && gone <= s.orphans.Keys
      requires View() == Swept(s, gone).(orphans := View().orphans)
      modifies this`connectionMap, this`connectingBlockedByEvictionList, this`parkedTasks
      ensures Sound() && View() == Swept(s, gone + {k}).(orphans := old(View()).orphans)
    {
      hide Sound, StillBlocked, StillParked, OrphansExact;
      SweepOneMore(s, gone, k);
      if k.addr !in connectionMap {
        assert false;
      }
      if connectionMap[k.addr].version != k.version {
        assert false;
      }
      if connectionMap[k.addr].peers != map[] {
        assert false;
      }
      RemoveConnection(k.addr);
      UnblockEvictionWaitingConnection();
    }

    method RemoveConnection(addr: SocketAddr)
      requires Sound()
      modifies this`connectionMap
      ensures Sound() && View() == old(View()).(conns := old(connectionMap) - {addr})
    {
      connectionMap := connectionMap - {addr};
    }

    method CloseOrphans(infos: seq<ConnectionId>, ghost s: State, ghost gone: set<ConnectionId>)
      requires Sound() && OrphansExact(s.orphans, s.conns, {})
      requires NoDuplicates(infos) && Elements(infos) <= s.orphans.Keys && Elements(infos) !! gone && gone <= s.orphans.Keys
      requires View() == Swept(s, gone).(orphans := View().orphans)
      modifies this`connectionMap, this`connectingBlockedByEvictionList, this`parkedTasks
      ensures Sound() && View() == Swept(s, gone + Elements(infos)).(orphans := old(View()).orphans)
    {
      hide Sound, Swept, OrphansExact;
      assert gone + Elements(infos[..0]) == gone;
      for i := 0 to |infos|
        invariant Sound() && View() == Swept(s, gone + Elements(infos[..i])).(orphans := old(View()).orphans)
      {
        NextInfo(infos, i, gone);
        CloseOrphan(infos[i], s, gone + Elements(infos[..i]));
      }
      assert infos[..|infos|] == infos;
    }

    method OldestOrphan() returns (oldest: Option<Instant>)
      requires Sound()
      ensures oldest.None? <==> View().orphans == map[]
      ensures oldest.Some? ==> IsOldest(oldest.value, View().orphans)
    {
      oldest := orphanConnectionSet.Oldest();
    }

    method PopOrphans() returns (infos: seq<ConnectionId>)
      requires Sound() && View().orphans != map[]
      modifies orphanConnectionSet
      ensures Sound() && infos != [] && NoDuplicates(infos) && OldestOf(infos, old(View()).orphans)
      ensures View() == old(View()).(orphans := old(View()).orphans - Elements(infos))
    {
      hide QueueAgrees, IndexAgrees, CountsAgree, Inverse, MetaAgrees, OldestOf;
      var popped := orphanConnectionSet.Pop();
      infos := popped.value;
    }

    /** Pops and closes the oldest orphans, unless they are too young. */
    method SweepOldest(now: Instant, ghost s: State, ghost gone: set<ConnectionId>) returns (more: bool, ghost gone': set<ConnectionId>)
      requires Sound() && OrphansExact(s.orphans, s.conns, {})
      requires gone <= Expired(config, s, now) && View() == Swept(s, gone)
      modifies Repr()
      ensures Sound() && View() == Swept(s, gone')
      ensures gone <= gone' <= Expired(config, s, now)
      ensures if more then gone < gone' else gone' == Expired(config, s, now)
    {
      hide Sound, Swept, OrphansExact, OldestOf, IsOldest, Expired;
      gone' := gone;
      assert View().orphans == s.orphans - gone by { SweptOrphans(s, gone); }
      var oldest := OldestOrphan();
      if oldest.None? || oldest.value + config.orphanTtl > now {
        NoneExpired(config, s, now, gone, oldest);
        return false, gone;
      }
      var popped := PopOrphans();
      PoppedExpired(config, s, now, gone, oldest.value, popped);
      SweptOrphans(s, gone + Elements(popped));
      gone' := gone + Elements(popped);
      CloseOrphans(popped, s, gone);
      more := true;
    }

    method TryEvictOrphanConnections(now: Instant)
      requires Valid()
      modifies Repr()
      ensures Valid() && View() == DriverState.TryEvictOrphans(config, old(View()), now)
    {
      hide InvExcept, Sound, Swept, Expired;
      ghost var s := View();
      SweepKeeps(config, s, now);
      SweepNothing(config, s);
      ghost var gone: set<ConnectionId> := {};
      var more := true;
      while more
        invariant Sound() && View() == Swept(s, gone) && gone <= Expired(config, s, now)
        invariant !more ==> gone == Expired(config, s, now)
        decreases Expired(config, s, now) - gone, more
      {
        more, gone := SweepOldest(now, s, gone);
      }
    }

    // ---------------------------------------------------------------- prediction

    /** The leaders that are soon to come; one already connected or connecting is left alone. */
    method TryPredictUpcomingLeaders(leaders: seq<Pubkey>, ans: Answers)
      requires Valid()
      modifies Repr()
      ensures Valid() && View() == SpawnAll(config, old(View()), Distinct(leaders), 1, ans)
    {
      hide Valid, Distinct;
      ghost var s := View();
      var visited: set<Pubkey> := {};
      DistinctNothing(leaders);
      for i := 0 to |leaders|
        invariant Valid() && visited == Elements(leaders[..i])
        invariant View() == SpawnAll(config, s, Distinct(leaders[..i]), 1, ans)
      {
        var p := leaders[i];
        DistinctOneMore(leaders, i);
        OneMore(leaders, i);
        var connectish := p in txWorkerHandleMap || p in connectingRemotePeers;
        if p in visited {
          continue;
        }
        visited := visited + {p};
        SpawnOneMore(config, s, Distinct(leaders[..i]), p, 1, ans);
        if !connectish {
          SpawnConnecting(p, 1, ans.dest(p), ans.stake(p));
        }
      }
      assert leaders[..|leaders|] == leaders;
    }

    // ---------------------------------------------------------------- identity

    method SpawnPeers(peers: seq<Pubkey>, attempt: nat, ans: Answers)
      requires Valid() && 1 <= attempt <= Max(1, config.maxConnectionAttempts)
      modifies Repr()
      ensures Valid() && View() == SpawnAll(config, old(View()), peers, attempt, ans)
    {
      hide Valid;
      for i := 0 to |peers|
        invariant Valid()
        invariant SpawnAll(config, View(), peers[i..], attempt, ans) == old(SpawnAll(config, View(), peers, attempt, ans))
      {
        assert peers[i..][0] == peers[i] && peers[i..][1..] == peers[i + 1..];
        SpawnConnecting(peers[i], attempt, ans.dest(peers[i]), ans.stake(peers[i]));
      }
    }

    /** Hands all workers and queues to a detached task that drains the workers. */
    method ScheduleGracefulDropAllWorker()
      requires Sound()
      modifies this, activeStakedSortedRemotePeer
      ensures Sound()
      ensures var s := old(View());
              View() == s.(workers := map[], tasks := map[], queues := map[], peerStakes := map[],
                           drains := s.drains + [Drain(s.tasks, s.queues)])
    {
      hide QueueAgrees, IndexAgrees, CountsAgree, Inverse;
      DetachWorkers();
      txWorkerHandleMap := map[];
      activeStakedSortedRemotePeer.Clear();
    }

    method DetachWorkers()
      requires Sound()
      modifies this`txWorkerSet, this`txWorkerTaskMetaMap, this`txQueues, this`detachedTasks
      ensures Sound()
      ensures var s := old(View());
              View() == s.(tasks := map[], queues := map[], drains := s.drains + [Drain(s.tasks, s.queues)])
    {
      hide QueueAgrees, IndexAgrees, CountsAgree, Inverse, MetaAgrees;
      detachedTasks := detachedTasks + [Drain(txWorkerSet, txQueues)];
      txQueues := map[];
      ClearTasks();
    }

    /** One turn of a detached task: worker `id` has ended. The queue of its peer, if one was handed
        over, and what the worker left are dropped with one response, which may be empty. */
    method DrainFinishedWorker(k: nat, id: TaskId)
      requires Sound() && k < |detachedTasks| && id in detachedTasks[k].workers
      modifies this`detachedTasks, this`responses
      ensures Sound() && View() == DrainFinish(old(View()), k, id)
    {
      hide QueueAgrees, IndexAgrees, CountsAgree, Inverse, MetaAgrees, Leftover;
      var drain := detachedTasks[k];
      var w := drain.workers[id];
      var canceled := Lookup(drain.queues, w.peer, []) + Leftover(w);
      detachedTasks := detachedTasks[k := Drain(drain.workers - {id}, drain.queues - {w.peer})];
      Callback(TxDrop(w.peer, DriverIdentityChanged, canceled));
    }

    method ClearTasks()
      requires Sound()
      modifies this`txWorkerSet, this`txWorkerTaskMetaMap
      ensures Sound() && View() == old(View()).(tasks := map[])
    {
      hide QueueAgrees, IndexAgrees, CountsAgree, Inverse, MetaAgrees;
      MetaEmpty();
      txWorkerTaskMetaMap, txWorkerSet := map[], map[];
    }

    method ClearEvictions()
      requires Sound()
      modifies this`beingEvictedPeers, pendingConnectionEvictionSet
      ensures Sound() && View() == old(View()).(evicted := {}, pending := {})
    {
      hide QueueAgrees, IndexAgrees, CountsAgree, Inverse, MetaAgrees;
      beingEvictedPeers := {};
      pendingConnectionEvictionSet.Clear();
    }

    method ClearConnections()
      requires Sound()
      modifies Repr()
      ensures Sound()
      ensures View() == old(View()).(conns := map[], orphans := map[], evicted := {}, pending := {}, addrStakes := map[])
    {
      hide QueueAgrees, IndexAgrees, CountsAgree, Inverse, MetaAgrees;
      connectionMap := map[];
      orphanConnectionSet.Clear();
      activeStakedSortedRemotePeerAddr.Clear();
      ClearEvictions();
    }

    method ClearIndexes()
      requires Sound()
      modifies this`connectingRemotePeers, this`connectingRemotePeersAddr
      ensures Sound() && View() == old(View()).(dialPeers := map[], dialAddrs := map[])
    {
      connectingRemotePeers, connectingRemotePeersAddr := map[], map[];
    }

    method ClearWaiters()
      requires Sound()
      modifies this`parkedTasks, this`connectingBlockedByEvictionList
      ensures Sound() && View() == old(View()).(parked := {}, blocked := [])
    {
      parkedTasks, connectingBlockedByEvictionList := {}, [];
    }

    /** Takes the metadata of all attempts and installs the new identity. */
    method SwitchIdentity(newIdentity: Pubkey) returns (dials: map<TaskId, Dial>)
      requires Sound()
      modifies this`connectingMeta, this`identity
      ensures Sound() && dials == old(connectingMeta)
      ensures View() == old(View()).(dials := map[], identity := newIdentity)
    {
      dials := connectingMeta;
      connectingMeta := map[];
      identity := newIdentity;
    }

    method Reset(newIdentity: Pubkey) returns (dials: map<TaskId, Dial>)
      requires Sound()
      modifies Repr()
      ensures Valid() && dials == old(connectingMeta)
      ensures View() == ResetForIdentity(old(View()), newIdentity)
    {
      hide Sound, InvExcept;
      ResetInv(config, View(), newIdentity);
      ScheduleGracefulDropAllWorker();
      ClearConnections();
      ClearIndexes();
      ClearWaiters();
      dials := SwitchIdentity(newIdentity);
    }

    /** Replays the attempts that were under way; `order` is the order in which the map gave them. */
    method RedialAll(dials: map<TaskId, Dial>, order: seq<TaskId>, ans: Answers)
      requires Valid() && forall id :: id in order ==> id in dials
      requires forall id :: id in order ==> 1 <= dials[id].attempt <= Max(1, config.maxConnectionAttempts)
      modifies Repr()
      ensures Valid() && View() == Redial(config, old(View()), DialsIn(dials, order), ans)
    {
      hide Valid, DialsIn;
      ghost var result := Redial(config, View(), DialsIn(dials, order), ans);
      DialsEnds(dials, order);
      for i := 0 to |order|
        invariant Valid() && (forall id :: id in order[i..] ==> id in dials)
        invariant Redial(config, View(), DialsIn(dials, order[i..]), ans) == result
      {
        DialsRest(dials, order, i);
        assert order[i] in order;
        SpawnPeers(dials[order[i]].peers, dials[order[i]].attempt, ans);
      }
    }

    method UpdateIdentity(newIdentity: Pubkey, ans: Answers) returns (order: seq<TaskId>)
      requires Valid()
      modifies Repr()
      ensures Valid() && NoDuplicates(order) && (forall id :: id in order <==> id in old(connectingMeta))
      ensures View() == DriverState.UpdateIdentity(config, old(View()), newIdentity, order, ans)
    {
      hide InvExcept, ResetForIdentity;
      AttemptsInRange(config, View());
      var dials := Reset(newIdentity);
      order := ListSet(dials.Keys);
      assert DialsIn(dials, order) == seq(|order|, i requires 0 <= i < |order| => dials[order[i]]);
      RedialAll(dials, order, ans);
    }
  }
}
