/** No worker joins a connection that is to be evicted.

    Most handlers leave the connections that are to be evicted untouched (`PendingFrozen`); a
    finished worker takes its own peer off, and an eviction round only adds connections. */
module DriverPending {
  import opened Types
  import opened Bags
  import opened DriverState
  import opened DriverInvariant
  import opened DriverSteps
  import opened DriverClosing
  import opened DriverLoops
  import opened DriverLedger
  import opened DriverRuns

  /** From `s` to `t` no worker joined a connection that was and still is to be evicted. */
  ghost predicate NoneJoined(s: State, t: State) {
    forall e {:trigger PendingOk(e, t.conns)} :: e in s.pending && e in t.pending && e.addr in s.conns ==>
      PendingOk(e, t.conns) && t.conns[e.addr].peers.Keys <= s.conns[e.addr].peers.Keys
  }

  /** The connections that are to be evicted, and which they are, did not change at all. */
  ghost predicate PendingFrozen(s: State, t: State) {
    t.pending == s.pending && forall e :: e in s.pending && e.addr in s.conns ==> e.addr in t.conns && t.conns[e.addr] == s.conns[e.addr]
  }

  lemma FrozenTrans(s: State, t: State, u: State)
    requires PendingFrozen(s, t) && PendingFrozen(t, u)
    ensures PendingFrozen(s, u)
  {
  }

  lemma SameFrozen(s: State, t: State)
    requires t.pending == s.pending && t.conns == s.conns
    ensures PendingFrozen(s, t)
  {
  }

  lemma DropFrozen(s: State, p: Pubkey, reason: DropReason)
    ensures PendingFrozen(s, DropQueued(s, p, reason))
  {
  }

  lemma AddWorkerFrozen(s: State, p: Pubkey, addr: SocketAddr, stake: nat)
    requires !PendingAt(s, addr) && p !in s.workers && addr in s.conns
    ensures PendingFrozen(s, InstallWorker(s, p, addr, stake)) && InstallWorker(s, p, addr, stake).pending == s.pending
  {
    assert forall e :: e in s.pending ==> e.addr != addr;
  }

  lemma InstallFrozen(s: State, p: Pubkey, addr: SocketAddr, stake: nat)
    requires !PendingAt(s, addr)
    ensures PendingFrozen(s, InstallWorker(s, p, addr, stake))
  {
    hide PendingFrozen, DropQueued;
    if p in s.workers {
      SameFrozen(s, s);
    } else if addr !in s.conns {
      DropFrozen(s, p, RemotePeerUnreachable);
    } else {
      AddWorkerFrozen(s, p, addr, stake);
    }
  }

  lemma {:induction false} SpawnFrozen(c: Config, s: State, p: Pubkey, attempt: nat, dest: Option<SocketAddr>, stake: nat)
    ensures PendingFrozen(s, SpawnConnecting(c, s, p, attempt, dest, stake))
  {
    hide PendingFrozen, DropQueued, InstallWorker, PendingAt;
    if p in s.dialPeers || p in s.evicted || p in s.workers {
      SameFrozen(s, s);
    } else if dest.None? {
      DropFrozen(s, p, RemotePeerUnreachable);
    } else if PendingAt(s, dest.value) {
      SameFrozen(s, s);
    } else if dest.value in s.conns {
      InstallFrozen(s, p, dest.value, stake);
    } else if dest.value in s.dialAddrs && s.dialAddrs[dest.value] in s.dials {
      SameFrozen(s, JoinDial(s, p, s.dialAddrs[dest.value]));
    } else {
      SameFrozen(s, StartDial(c, s, p, dest.value, attempt));
    }
  }

  lemma FrozenPending(s: State, t: State, addr: SocketAddr)
    requires PendingFrozen(s, t) && !PendingAt(s, addr)
    ensures !PendingAt(t, addr)
  {
  }

  lemma {:induction false} InstallAllFrozen(s: State, peers: seq<Pubkey>, addr: SocketAddr, ans: Answers)
    requires !PendingAt(s, addr)
    ensures PendingFrozen(s, InstallAll(s, peers, addr, ans))
    decreases |peers|
  {
    hide PendingFrozen, InstallWorker, PendingAt;
    if peers == [] {
      SameFrozen(s, s);
    } else {
      var t := InstallWorker(s, peers[0], addr, ans.stake(peers[0]));
      InstallFrozen(s, peers[0], addr, ans.stake(peers[0]));
      FrozenPending(s, t, addr);
      InstallAllFrozen(t, peers[1..], addr, ans);
      FrozenTrans(s, t, InstallAll(t, peers[1..], addr, ans));
    }
  }

  lemma {:induction false} UnreachableFrozen(s: State, peers: seq<Pubkey>)
    ensures PendingFrozen(s, UnreachableAll(s, peers))
    decreases |peers|
  {
    hide PendingFrozen, DropQueued;
    if peers == [] {
      SameFrozen(s, s);
    } else {
      var t := DropQueued(s, peers[0], RemotePeerUnreachable);
      DropFrozen(s, peers[0], RemotePeerUnreachable);
      UnreachableFrozen(t, peers[1..]);
      FrozenTrans(s, t, UnreachableAll(t, peers[1..]));
    }
  }

  lemma {:induction false} RetryFrozen(c: Config, s: State, peers: seq<Pubkey>, dial: Dial, ans: Answers)
    ensures PendingFrozen(s, RetryAll(c, s, peers, dial, ans))
    decreases |peers|
  {
    hide SpawnConnecting;
    if peers != [] {
      var p := peers[0];
      var t := RetryPeer(c, s, p, dial, ans);
      if ans.dest(p).Some? {
        SpawnFrozen(c, s, p, RetryAttempt(dial, ans.dest(p).value), ans.again(p), ans.stake(p));
      }
      RetryFrozen(c, t, peers[1..], dial, ans);
      FrozenTrans(s, t, RetryAll(c, s, peers, dial, ans));
    }
  }

  lemma {:induction false} SpawnAllFrozen(c: Config, s: State, peers: seq<Pubkey>, attempt: nat, ans: Answers)
    ensures PendingFrozen(s, SpawnAll(c, s, peers, attempt, ans))
    decreases |peers|
  {
    hide SpawnConnecting;
    if peers != [] {
      var p := peers[0];
      SpawnFrozen(c, s, p, attempt, ans.dest(p), ans.stake(p));
      var t := SpawnConnecting(c, s, p, attempt, ans.dest(p), ans.stake(p));
      SpawnAllFrozen(c, t, peers[1..], attempt, ans);
      FrozenTrans(s, t, SpawnAll(c, s, peers, attempt, ans));
    }
  }

  lemma {:induction false} RedialFrozen(c: Config, s: State, dials: seq<Dial>, ans: Answers)
    ensures PendingFrozen(s, Redial(c, s, dials, ans))
    decreases |dials|
  {
    if dials != [] {
      SpawnAllFrozen(c, s, dials[0].peers, dials[0].attempt, ans);
      var t := SpawnAll(c, s, dials[0].peers, dials[0].attempt, ans);
      RedialFrozen(c, t, dials[1..], ans);
      FrozenTrans(s, t, Redial(c, s, dials, ans));
    }
  }

  lemma ConnectingFrozen(c: Config, s: State, id: TaskId, outcome: ConnectOutcome, ans: Answers)
    requires Inv(c, s) && id in s.dials && id !in s.parked
    ensures PendingFrozen(s, HandleConnectingResult(c, s, id, outcome, ans))
  {
    hide InvExcept, EndDial, Connect, InstallAll, RetryAll, UnreachableAll;
    var dial := s.dials[id];
    var ended := EndDial(s, id);
    EndedDial(c, s, id);
    EndFrozen(s, id);
    match outcome
    case Connected =>
      var connected := Connect(ended, dial.addr);
      ConnectKeeps(c, ended, dial.addr);
      ConnectFrozen(c, ended, dial.addr);
      InstallAllFrozen(connected, dial.peers, dial.addr, ans);
      FrozenTrans(ended, connected, InstallAll(connected, dial.peers, dial.addr, ans));
      FrozenTrans(s, ended, InstallAll(connected, dial.peers, dial.addr, ans));
    case ConnectionFailed =>
      RetryFrozen(c, ended, dial.peers, dial, ans);
      UnreachableFrozen(ended, dial.peers);
      FrozenTrans(s, ended, RetryAll(c, ended, dial.peers, dial, ans));
      FrozenTrans(s, ended, UnreachableAll(ended, dial.peers));
    case _ =>
      UnreachableFrozen(ended, dial.peers);
      FrozenTrans(s, ended, UnreachableAll(ended, dial.peers));
  }

  lemma EndFrozen(s: State, id: TaskId)
    requires id in s.dials
    ensures PendingFrozen(s, EndDial(s, id))
  {
  }

  lemma ConnectFrozen(c: Config, s: State, addr: SocketAddr)
    requires addr !in s.conns
    ensures PendingFrozen(s, Connect(s, addr))
  {
  }

  lemma QueueFrozen(c: Config, s: State, p: Pubkey, e: Entry)
    ensures PendingFrozen(s, QueueOrDrop(c, s, p, e))
  {
  }

  lemma AcceptTooLargeFrozen(c: Config, s: State, tx: Txn, now: Instant, dest: Option<SocketAddr>, stake: nat)
    requires TooLarge(c, tx)
    ensures PendingFrozen(s, AcceptTx(c, s, tx, now, dest, stake))
  {
  }

  lemma {:induction false} AcceptForWorkerFrozen(c: Config, s: State, tx: Txn, now: Instant, dest: Option<SocketAddr>, stake: nat)
    requires !TooLarge(c, tx) && tx.peer in s.workers && s.workers[tx.peer].task in s.tasks
    ensures PendingFrozen(s, AcceptTx(c, s, tx, now, dest, stake))
  {
    hide PendingFrozen, SetTask, Report;
    var s1 := s.(lastActivity := s.lastActivity[tx.peer := now], accepted := s.accepted + multiset{tx});
    var id := s.workers[tx.peer].task;
    TouchFrozen(s, s1, id, s.tasks[id].(channel := s.tasks[id].channel + [tx]), TxDrop(tx.peer, RateLimited, [Entry(tx, 1)]));
  }

  lemma TouchFrozen(s: State, t: State, id: TaskId, w: Worker, r: Response)
    requires t.pending == s.pending && t.conns == s.conns
    ensures PendingFrozen(s, SetTask(t, id, w)) && PendingFrozen(s, Report(t, r))
  {
  }

  lemma {:induction false} AcceptWaitingFrozen(c: Config, s: State, tx: Txn, now: Instant, dest: Option<SocketAddr>, stake: nat)
    requires !TooLarge(c, tx) && !(tx.peer in s.workers && s.workers[tx.peer].task in s.tasks)
    ensures PendingFrozen(s, AcceptTx(c, s, tx, now, dest, stake))
  {
    hide PendingFrozen, SpawnConnecting, QueueOrDrop, HasRoom;
    var p := tx.peer;
    var s1 := s.(lastActivity := s.lastActivity[p := now], accepted := s.accepted + multiset{tx});
    var queued := QueueOrDrop(c, s1, p, Entry(tx, 1));
    SameFrozen(s, s1);
    QueueFrozen(c, s1, p, Entry(tx, 1));
    FrozenTrans(s, s1, queued);
    SpawnFrozen(c, queued, p, 1, dest, stake);
    FrozenTrans(s, queued, SpawnConnecting(c, queued, p, 1, dest, stake));
  }

  lemma {:induction false} AcceptFrozen(c: Config, s: State, tx: Txn, now: Instant, dest: Option<SocketAddr>, stake: nat)
    ensures PendingFrozen(s, AcceptTx(c, s, tx, now, dest, stake))
  {
    hide PendingFrozen, AcceptTx;
    if TooLarge(c, tx) {
      AcceptTooLargeFrozen(c, s, tx, now, dest, stake);
    } else if tx.peer in s.workers && s.workers[tx.peer].task in s.tasks {
      AcceptForWorkerFrozen(c, s, tx, now, dest, stake);
    } else {
      AcceptWaitingFrozen(c, s, tx, now, dest, stake);
    }
  }

  lemma WorkerResultJoins(c: Config, s: State, id: TaskId, versionMismatch: bool, now: Instant, ans: Answers)
    requires Inv(c, s) && CanRetire(c, s, id)
    ensures NoneJoined(s, HandleWorkerResult(c, s, id, versionMismatch, now, ans))
  {
    hide InvExcept, SpawnConnecting, RetireWorker, QueueAll;
    var p := s.tasks[id].peer;
    var retired := RetireWorker(s, id, now);
    var rescued := QueueAll(c, retired, p, Leftover(s.tasks[id]));
    RetireKeeps(c, s, id, now);
    RetireJoins(c, s, id, now);
    RescueFrozen(c, retired, p, Leftover(s.tasks[id]));
    var active := rescued.(lastActivity := rescued.lastActivity[p := now]);
    SpawnFrozen(c, active, p, 1, ans.dest(p), ans.stake(p));
    var t := HandleWorkerResult(c, s, id, versionMismatch, now, ans);
    assert PendingFrozen(retired, t);
    PendingsLive(c, retired);
  }

  lemma RescueFrozen(c: Config, s: State, p: Pubkey, entries: seq<Entry>)
    ensures PendingFrozen(s, QueueAll(c, s, p, entries))
  {
  }

  lemma PendingsLive(c: Config, s: State)
    requires Inv(c, s)
    ensures forall e :: e in s.pending ==> PendingOk(e, s.conns)
  {
  }

  lemma RetireJoins(c: Config, s: State, id: TaskId, now: Instant)
    requires Inv(c, s) && CanRetire(c, s, id) && Inv(c, RetireWorker(s, id, now))
    ensures NoneJoined(s, RetireWorker(s, id, now))
  {
    hide WorkersInv, DialsInv, EvictionClosed, OrphansExact, AddrStakesOk;
  }

  /** In one event no worker joins a connection that is to be evicted; it can only lose some. */
  lemma StepJoins(c: Config, s: State, ev: Event)
    requires Inv(c, s) && Enabled(s, ev)
    ensures NoneJoined(s, Step(c, s, ev))
  {
    hide InvExcept, NoneJoined, PendingFrozen, AcceptTx, HandleConnectingResult, HandleWorkerResult,
      DoEvictionIfRequired, SpawnAll, HandleAddrChange, TryEvictOrphans, Redial, WorkerReceive;
    StepInv(c, s, ev);
    match ev
    case TxArrived(tx, now, ans) =>
      AcceptFrozen(c, s, tx, now, ans.dest(tx.peer), ans.stake(tx.peer));
      FrozenJoins(c, s, Step(c, s, ev));
    case ConnectingDone(id, outcome, ans) =>
      ConnectingFrozen(c, s, id, outcome, ans);
      FrozenJoins(c, s, Step(c, s, ev));
    case WorkerDone(id, mismatch, now, ans) =>
      TaskIsServed(c, s, id);
      WorkerResultJoins(c, s, id, mismatch, now, ans);
    case LeadersPredicted(leaders, ans) =>
      SpawnAllFrozen(c, s, Distinct(leaders), 1, ans);
      FrozenJoins(c, s, Step(c, s, ev));
    case IdentityUpdated(identity, order, ans) =>
      RedialFrozen(c, ResetForIdentity(s, identity), DialsIn(s.dials, order), ans);
      NothingPending(c, ResetForIdentity(s, identity), s, Step(c, s, ev));
    case OrphanTick(now) => SweepJoins(c, s, now);
    case EvictionTick(plan, fallback) =>
      EvictionKeepsConns(s, plan, fallback);
      SameConns(c, s, Step(c, s, ev));
    case AddressesChanged(changed, ans) =>
      ChangeKeepsConns(s, changed, ans);
      SameConns(c, s, Step(c, s, ev));
    case WorkerReceives(id) =>
      ReceiveKeepsConns(s, id);
      SameConns(c, s, Step(c, s, ev));
    case WorkerSends(id, result) =>
      SameConns(c, s, Step(c, s, ev));
    case _ =>
      SameConns(c, s, Step(c, s, ev));
  }

  lemma {:induction false} EvictionKeepsConns(s: State, plan: seq<Pubkey>, fallback: Option<SocketAddr>)
    ensures DoEvictionIfRequired(s, plan, fallback).conns == s.conns
  {
    hide EvictionsRequired, Evict;
    EvictKeepsConns(s, Elements(plan));
    if fallback.Some? && fallback.value in s.conns {
      EvictKeepsConns(s, s.conns[fallback.value].peers.Keys);
    }
  }

  lemma EvictKeepsConns(s: State, plan: set<Pubkey>)
    ensures Evict(s, plan).conns == s.conns
  {
  }

  lemma ChangeKeepsConns(s: State, changed: set<Pubkey>, ans: Answers)
    ensures HandleAddrChange(s, changed, ans).conns == s.conns
  {
  }

  lemma ReceiveKeepsConns(s: State, id: TaskId)
    requires id in s.tasks && s.tasks[id].queue == [] && s.tasks[id].channel != []
    ensures WorkerReceive(s, id).conns == s.conns
  {
  }

  lemma FrozenJoins(c: Config, s: State, t: State)
    requires Inv(c, t) && PendingFrozen(s, t)
    ensures NoneJoined(s, t)
  {
  }

  lemma NothingPending(c: Config, r: State, s: State, t: State)
    requires r.pending == {} && PendingFrozen(r, t)
    ensures NoneJoined(s, t)
  {
  }

  lemma SameConns(c: Config, s: State, t: State)
    requires Inv(c, t) && t.conns == s.conns
    ensures NoneJoined(s, t)
  {
  }

  lemma SweepJoins(c: Config, s: State, now: Instant)
    requires Inv(c, TryEvictOrphans(c, s, now))
    ensures NoneJoined(s, TryEvictOrphans(c, s, now))
  {
  }
}
