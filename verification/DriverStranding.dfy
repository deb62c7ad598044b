/** Waiting without an attempt. A peer with a waiting queue should have a connection attempt under
    way; but no attempt is made to an address with a pending eviction, and nothing remembers that
    one was wanted. This module says exactly which events leave a peer so, and what helps it. */
module DriverStranding {
  import opened Types
  import opened DriverState
  import opened DriverInvariant
  import opened DriverSteps
  import opened DriverClosing
  import opened DriverLedger
  import opened DriverRuns

  /** Transactions wait for the peer, which has no worker and no attempt under way. */
  ghost predicate Stranded(s: State, p: Pubkey) {
    p in s.queues && p !in s.dialPeers
  }

  /** The address asked for has a pending eviction. */
  ghost predicate Refused(s: State, dest: Option<SocketAddr>) {
    dest.Some? && PendingAt(s, dest.value)
  }

  /** The failed attempt is made again, and then refused, for a peer something waits for. */
  ghost predicate RetryRefused(s: State, p: Pubkey, ans: Answers) {
    p in s.queues && ans.dest(p).Some? && Refused(s, ans.again(p))
  }

  /** What can be seen before the event: it asks for an address with a pending eviction while
      something waits for the peer. */
  ghost predicate Strands(c: Config, s: State, ev: Event, p: Pubkey)
    requires Enabled(s, ev)
  {
    match ev
    case TxArrived(tx, _, ans) =>
      && tx.peer == p && !TooLarge(c, tx) && p !in s.workers && p !in s.dialPeers && HasRoom(c, s, p)
      && Refused(s, ans.dest(p))
    case ConnectingDone(id, outcome, ans) =>
      && p in s.dials[id].peers && outcome.ConnectionFailed? && s.dials[id].attempt < c.maxConnectionAttempts
      && RetryRefused(s, p, ans)
    case WorkerDone(id, mismatch, now, ans) =>
      && CanRetire(c, s, id) && s.tasks[id].peer == p && !mismatch && p !in s.evicted
      && Leftover(s.tasks[id]) != [] && c.capacity > 0
      && Refused(RetireWorker(s, id, now), ans.dest(p))
    case _ => false
  }

  /** The events that ask for a connection to the peer, or discard its queue. */
  predicate Helps(ev: Event, p: Pubkey) {
    match ev
    case TxArrived(tx, _, _) => tx.peer == p
    case LeadersPredicted(leaders, _) => p in leaders
    case IdentityUpdated(_, _, _) => true
    case _ => false
  }

  // ---------------------------------------------------------------- what the steps do to one peer

  /** Neither the queue of `p` nor what it waits for has changed. */
  ghost predicate Untouched(s: State, t: State, p: Pubkey) {
    && (p in t.queues <==> p in s.queues) && (p in s.queues ==> t.queues[p] == s.queues[p])
    && (p in t.dialPeers <==> p in s.dialPeers)
    && (p in t.workers <==> p in s.workers)
  }

  lemma {:induction false} InstallTouches(s: State, q: Pubkey, addr: SocketAddr, stake: nat, p: Pubkey)
    ensures var t := InstallWorker(s, q, addr, stake);
            && t.pending == s.pending && t.evicted == s.evicted && t.dialPeers == s.dialPeers
            && (p != q ==> Untouched(s, t, p))
            && (q !in s.workers ==> q !in t.queues)
  {
    if q in s.workers {
    } else if addr !in s.conns {
      DropTouches(s, q, RemotePeerUnreachable, p);
    } else {
      InstalledFields(s, q, addr, stake);
    }
  }

  lemma InstalledFields(s: State, q: Pubkey, addr: SocketAddr, stake: nat)
    requires q !in s.workers && addr in s.conns
    ensures var t := InstallWorker(s, q, addr, stake);
            && t.pending == s.pending && t.evicted == s.evicted && t.dialPeers == s.dialPeers
            && t.queues == s.queues - {q} && t.workers.Keys == s.workers.Keys + {q}
  {
  }

  lemma {:induction false} InstallAllTouches(s: State, peers: seq<Pubkey>, addr: SocketAddr, ans: Answers, p: Pubkey)
    requires NoDuplicates(peers) && forall q :: q in peers ==> q !in s.workers
    ensures var t := InstallAll(s, peers, addr, ans);
            if p in peers then p !in t.queues else Untouched(s, t, p)
    decreases |peers|
  {
    hide InstallWorker;
    if peers != [] {
      var q := peers[0];
      var t := InstallWorker(s, q, addr, ans.stake(q));
      DistinctRest(peers);
      forall r | r in peers[1..] ensures r !in t.workers {
        InstallTouches(s, q, addr, ans.stake(q), r);
      }
      InstallTouches(s, q, addr, ans.stake(q), p);
      assert p in peers <==> p == q || p in peers[1..];
      InstallAllTouches(t, peers[1..], addr, ans, p);
    }
  }

  lemma DropTouches(s: State, q: Pubkey, reason: DropReason, p: Pubkey)
    ensures var t := DropQueued(s, q, reason);
            && t.pending == s.pending && t.evicted == s.evicted && t.dialPeers == s.dialPeers && t.workers == s.workers
            && (p != q ==> Untouched(s, t, p)) && q !in t.queues
  {
  }

  lemma {:induction false} UnreachableTouches(s: State, peers: seq<Pubkey>, p: Pubkey)
    ensures var t := UnreachableAll(s, peers);
            if p in peers then p !in t.queues else Untouched(s, t, p)
    ensures UnreachableAll(s, peers).queues.Keys <= s.queues.Keys
    decreases |peers|
  {
    if peers != [] {
      UnreachableTouches(DropQueued(s, peers[0], RemotePeerUnreachable), peers[1..], p);
    }
  }

  lemma DialTouches(c: Config, s: State, q: Pubkey, addr: SocketAddr, attempt: nat, p: Pubkey)
    ensures var t := StartDial(c, s, q, addr, attempt);
            && t.pending == s.pending && t.evicted == s.evicted && q in t.dialPeers && (p != q ==> Untouched(s, t, p))
    ensures addr in s.dialAddrs && s.dialAddrs[addr] in s.dials ==>
            var t := JoinDial(s, q, s.dialAddrs[addr]);
            && t.pending == s.pending && t.evicted == s.evicted && q in t.dialPeers && (p != q ==> Untouched(s, t, p))
  {
  }

  /** Asking for a connection concerns only the peer, and leaves it stranded exactly if something
      waits for it and the address is refused. */
  lemma {:induction false} SpawnTouches(c: Config, s: State, q: Pubkey, attempt: nat, dest: Option<SocketAddr>, stake: nat, p: Pubkey)
    ensures var t := SpawnConnecting(c, s, q, attempt, dest, stake);
            && t.pending == s.pending && t.evicted == s.evicted
            && (p != q ==> Untouched(s, t, p))
            && (q !in s.dialPeers && q !in s.evicted && q !in s.workers ==>
                  (Stranded(t, q) <==> q in s.queues && Refused(s, dest)))
  {
    hide InstallWorker, DropQueued, JoinDial, StartDial, PendingAt, Untouched;
    SameTouches(s, p);
    DropTouches(s, q, RemotePeerUnreachable, p);
    if dest.Some? {
      DialTouches(c, s, q, dest.value, attempt, p);
      InstallTouches(s, q, dest.value, stake, p);
    }
  }

  lemma SameTouches(s: State, p: Pubkey)
    ensures Untouched(s, s, p)
  {
  }

  /** Asking for a connection never strands a peer that was not. */
  lemma {:induction false} SpawnNeverAdds(c: Config, s: State, q: Pubkey, attempt: nat, dest: Option<SocketAddr>, stake: nat, p: Pubkey)
    requires !Stranded(s, p)
    ensures !Stranded(SpawnConnecting(c, s, q, attempt, dest, stake), p)
  {
    hide PendingAt;
    SpawnTouches(c, s, q, attempt, dest, stake, p);
  }

  lemma {:induction false} RetryTouches(c: Config, s: State, q: Pubkey, dial: Dial, ans: Answers, p: Pubkey)
    ensures var t := RetryPeer(c, s, q, dial, ans);
            && t.pending == s.pending && t.evicted == s.evicted
            && (p != q ==> Untouched(s, t, p))
            && (q !in s.dialPeers && q !in s.evicted && q !in s.workers ==> (Stranded(t, q) <==> RetryRefused(s, q, ans)))
  {
    hide SpawnConnecting, DropQueued, PendingAt;
    if ans.dest(q).None? {
      DropTouches(s, q, RemotePeerUnreachable, p);
    } else {
      SpawnTouches(c, s, q, RetryAttempt(dial, ans.dest(q).value), ans.again(q), ans.stake(q), p);
    }
  }

  lemma {:induction false} RetryAllTouches(c: Config, s: State, peers: seq<Pubkey>, dial: Dial, ans: Answers, p: Pubkey)
    requires NoDuplicates(peers) && forall q :: q in peers ==> q !in s.dialPeers && q !in s.evicted && q !in s.workers
    ensures var t := RetryAll(c, s, peers, dial, ans);
            if p in peers then Stranded(t, p) <==> RetryRefused(s, p, ans) else Untouched(s, t, p)
    decreases |peers|
  {
    hide RetryPeer;
    if peers != [] {
      var q := peers[0];
      var t := RetryPeer(c, s, q, dial, ans);
      DistinctRest(peers);
      forall r | r in peers[1..] ensures r !in t.dialPeers && r !in t.evicted && r !in t.workers {
        RetryTouches(c, s, q, dial, ans, r);
      }
      RetryTouches(c, s, q, dial, ans, p);
      assert p in peers <==> p == q || p in peers[1..];
      RetryAllTouches(c, t, peers[1..], dial, ans, p);
    }
  }

  lemma {:induction false} SpawnAllNeverAdds(c: Config, s: State, peers: seq<Pubkey>, attempt: nat, ans: Answers, p: Pubkey)
    ensures var t := SpawnAll(c, s, peers, attempt, ans);
            && (!Stranded(s, p) ==> !Stranded(t, p))
            && (p !in peers ==> Untouched(s, t, p))
    decreases |peers|
  {
    hide SpawnConnecting;
    if peers != [] {
      var q := peers[0];
      var t := SpawnConnecting(c, s, q, attempt, ans.dest(q), ans.stake(q));
      SpawnTouches(c, s, q, attempt, ans.dest(q), ans.stake(q), p);
      if !Stranded(s, p) {
        SpawnNeverAdds(c, s, q, attempt, ans.dest(q), ans.stake(q), p);
      }
      SpawnAllNeverAdds(c, t, peers[1..], attempt, ans, p);
    }
  }

  lemma {:induction false} RedialNeverAdds(c: Config, s: State, dials: seq<Dial>, ans: Answers, p: Pubkey)
    requires !Stranded(s, p)
    ensures !Stranded(Redial(c, s, dials, ans), p)
    decreases |dials|
  {
    hide SpawnAll;
    if dials != [] {
      SpawnAllNeverAdds(c, s, dials[0].peers, dials[0].attempt, ans, p);
      RedialNeverAdds(c, SpawnAll(c, s, dials[0].peers, dials[0].attempt, ans), dials[1..], ans, p);
    }
  }

  // ---------------------------------------------------------------- one event

  /** What an event does to a peer, as far as it waits: whether one that was not stranded becomes
      so, and that a stranded one stays as it was unless the event helps. */
  ghost predicate Effect(c: Config, s: State, ev: Event, t: State, p: Pubkey)
    requires Enabled(s, ev)
  {
    && (!Stranded(s, p) ==> (Stranded(t, p) <==> Strands(c, s, ev, p)))
    && (Stranded(s, p) && !Helps(ev, p) ==> Stranded(t, p) && t.queues[p] == s.queues[p])
  }

  lemma {:induction false} AcceptEffect(c: Config, s: State, tx: Txn, now: Instant, ans: Answers, p: Pubkey)
    requires Inv(c, s)
    ensures Effect(c, s, TxArrived(tx, now, ans), AcceptTx(c, s, tx, now, ans.dest(tx.peer), ans.stake(tx.peer)), p)
  {
    hide InvExcept, AcceptTx, HasRoom, Refused;
    var q, dest, stake := tx.peer, ans.dest(tx.peer), ans.stake(tx.peer);
    NotEvicted(c, s, q);
    if q in s.workers {
      WorkersTask(c, s, q);
    }
    if TooLarge(c, tx) || q in s.workers || !HasRoom(c, s, q) {
      AcceptElsewhere(c, s, tx, now, dest, stake);
    } else {
      AcceptQueues(c, s, tx, now, dest, stake, p);
    }
  }

  lemma {:induction false} AcceptElsewhere(c: Config, s: State, tx: Txn, now: Instant, dest: Option<SocketAddr>, stake: nat)
    requires TooLarge(c, tx) || tx.peer in s.workers || !HasRoom(c, s, tx.peer)
    requires tx.peer in s.workers ==> s.workers[tx.peer].task in s.tasks
    ensures var t := AcceptTx(c, s, tx, now, dest, stake); t.queues == s.queues && t.dialPeers == s.dialPeers
  {
    hide AcceptTx, TooLarge, HasRoom;
    if TooLarge(c, tx) {
      RefusesLarge(c, s, tx, now, dest, stake);
    } else if tx.peer in s.workers {
      GivesToWorker(c, s, tx, now, dest, stake);
    } else {
      RefusesFull(c, s, tx, now, dest, stake);
    }
  }

  lemma {:induction false} RefusesLarge(c: Config, s: State, tx: Txn, now: Instant, dest: Option<SocketAddr>, stake: nat)
    requires TooLarge(c, tx)
    ensures var t := AcceptTx(c, s, tx, now, dest, stake); t.queues == s.queues && t.dialPeers == s.dialPeers
  {
    hide SpawnConnecting, SetTask, QueueOrDrop, HasRoom;
  }

  lemma {:induction false} GivesToWorker(c: Config, s: State, tx: Txn, now: Instant, dest: Option<SocketAddr>, stake: nat)
    requires !TooLarge(c, tx) && tx.peer in s.workers && s.workers[tx.peer].task in s.tasks
    ensures var t := AcceptTx(c, s, tx, now, dest, stake); t.queues == s.queues && t.dialPeers == s.dialPeers
  {
    hide SpawnConnecting, QueueOrDrop, HasRoom, SetTask, Report;
    var s1 := s.(lastActivity := s.lastActivity[tx.peer := now], accepted := s.accepted + multiset{tx});
    var id := s.workers[tx.peer].task;
    var w, r := s.tasks[id].(channel := s.tasks[id].channel + [tx]), TxDrop(tx.peer, RateLimited, [Entry(tx, 1)]);
    OnlyTasks(s1, id, w, r);
    if |s.tasks[id].channel| < c.capacity {
      assert AcceptTx(c, s, tx, now, dest, stake) == SetTask(s1, id, w);
    } else {
      assert AcceptTx(c, s, tx, now, dest, stake) == Report(s1, r);
    }
  }

  lemma OnlyTasks(s: State, id: TaskId, w: Worker, r: Response)
    ensures SetTask(s, id, w).queues == s.queues && SetTask(s, id, w).dialPeers == s.dialPeers
    ensures Report(s, r).queues == s.queues && Report(s, r).dialPeers == s.dialPeers
  {
  }

  lemma {:induction false} RefusesFull(c: Config, s: State, tx: Txn, now: Instant, dest: Option<SocketAddr>, stake: nat)
    requires !TooLarge(c, tx) && tx.peer !in s.workers && !HasRoom(c, s, tx.peer)
    ensures var t := AcceptTx(c, s, tx, now, dest, stake); t.queues == s.queues && t.dialPeers == s.dialPeers
  {
    hide SpawnConnecting, SetTask, Report;
    var s1 := s.(lastActivity := s.lastActivity[tx.peer := now], accepted := s.accepted + multiset{tx});
    assert AcceptTx(c, s, tx, now, dest, stake) == QueueOrDrop(c, s1, tx.peer, Entry(tx, 1));
  }

  lemma {:induction false} AcceptQueues(c: Config, s: State, tx: Txn, now: Instant, dest: Option<SocketAddr>, stake: nat, p: Pubkey)
    requires !TooLarge(c, tx) && tx.peer !in s.workers && HasRoom(c, s, tx.peer) && tx.peer !in s.evicted
    ensures var t := AcceptTx(c, s, tx, now, dest, stake);
            && (p != tx.peer ==> Untouched(s, t, p))
            && (tx.peer in s.dialPeers ==> !Stranded(t, tx.peer))
            && (tx.peer !in s.dialPeers ==> (Stranded(t, tx.peer) <==> Refused(s, dest)))
  {
    hide SpawnConnecting, Refused;
    var q := tx.peer;
    var s1 := s.(lastActivity := s.lastActivity[q := now], accepted := s.accepted + multiset{tx});
    var queued := QueueOrDrop(c, s1, q, Entry(tx, 1));
    var t := AcceptTx(c, s, tx, now, dest, stake);
    assert t == SpawnConnecting(c, queued, q, 1, dest, stake);
    QueueTouches(c, s1, q, Entry(tx, 1), p);
    SpawnTouches(c, queued, q, 1, dest, stake, p);
    SamePending(s, queued, dest);
    if q in s.dialPeers {
      InDial(c, queued, q, 1, dest, stake);
    }
  }

  lemma QueueTouches(c: Config, s: State, q: Pubkey, e: Entry, p: Pubkey)
    requires HasRoom(c, s, q)
    ensures var t := QueueOrDrop(c, s, q, e);
            && t == s.(queues := t.queues) && q in t.queues && (p != q ==> Untouched(s, t, p))
  {
  }

  lemma WorkersTask(c: Config, s: State, p: Pubkey)
    requires Inv(c, s) && p in s.workers
    ensures s.workers[p].task in s.tasks
  {
    assert OwnsTask(p, s.workers, s.tasks);
  }

  lemma NotEvicted(c: Config, s: State, p: Pubkey)
    requires Inv(c, s)
    ensures p in s.evicted ==> p in s.workers
    ensures p in s.workers ==> p !in s.dialPeers && p !in s.queues
  {
    if p in s.evicted {
      assert EvictedOk(p, s.evicted, s.workers, s.conns, s.pending, s.tasks);
    }
    if p in s.queues {
      assert QueueOk(c, p, s.queues, s.workers);
    }
  }

  lemma InDial(c: Config, s: State, p: Pubkey, attempt: nat, dest: Option<SocketAddr>, stake: nat)
    requires p in s.dialPeers
    ensures SpawnConnecting(c, s, p, attempt, dest, stake) == s
  {
  }

  lemma DialPeers(c: Config, s: State, id: TaskId)
    requires Inv(c, s) && id in s.dials
    ensures NoDuplicates(s.dials[id].peers)
    ensures forall q :: q in s.dials[id].peers ==> q in s.dialPeers && q !in s.workers && q !in s.evicted
  {
    assert DialOk(id, s.dials, s.dialPeers, s.dialAddrs, s.nextTask);
    forall q | q in s.dials[id].peers ensures q !in s.workers && q !in s.evicted {
      NotEvicted(c, s, q);
    }
  }

  lemma {:induction false} ConnectingEffect(c: Config, s: State, id: TaskId, outcome: ConnectOutcome, ans: Answers, p: Pubkey)
    requires Inv(c, s) && Enabled(s, ConnectingDone(id, outcome, ans))
    ensures Effect(c, s, ConnectingDone(id, outcome, ans), HandleConnectingResult(c, s, id, outcome, ans), p)
  {
    hide InvExcept, PendingAt;
    var dial, ended := s.dials[id], EndDial(s, id);
    DialPeers(c, s, id);
    assert ended.dialPeers.Keys == s.dialPeers.Keys - Elements(dial.peers);
    match outcome
    case Connected => InstallAllTouches(Connect(ended, dial.addr), dial.peers, dial.addr, ans, p);
    case ConnectionFailed =>
      RetryAllTouches(c, ended, dial.peers, dial, ans, p);
      UnreachableTouches(ended, dial.peers, p);
      SamePending(s, ended, ans.again(p));
    case _ => UnreachableTouches(ended, dial.peers, p);
  }

  lemma SamePending(s: State, t: State, dest: Option<SocketAddr>)
    requires t.pending == s.pending
    ensures Refused(t, dest) == Refused(s, dest)
  {
  }

  lemma RetireTouches(c: Config, s: State, id: TaskId, now: Instant)
    requires CanRetire(c, s, id)
    ensures var t := RetireWorker(s, id, now); var q := s.tasks[id].peer;
            && t.queues == s.queues && t.dialPeers == s.dialPeers && q !in t.evicted && q !in t.workers
  {
  }

  lemma RescueTouches(c: Config, s: State, q: Pubkey, entries: seq<Entry>, p: Pubkey)
    ensures var t := QueueAll(c, s, q, entries);
            && t.pending == s.pending && t.evicted == s.evicted && t.dialPeers == s.dialPeers && t.workers == s.workers
            && (p != q ==> Untouched(s, t, p))
            && (q !in s.queues ==> (q in t.queues <==> entries != [] && c.capacity > 0))
  {
  }

  lemma {:induction false} WorkerEffect(c: Config, s: State, id: TaskId, mismatch: bool, now: Instant, ans: Answers, p: Pubkey)
    requires Inv(c, s) && CanRetire(c, s, id)
    ensures Effect(c, s, WorkerDone(id, mismatch, now, ans), HandleWorkerResult(c, s, id, mismatch, now, ans), p)
  {
    hide InvExcept, PendingAt, RetireWorker, QueueAll, SpawnConnecting, DropQueued, Leftover;
    var q := s.tasks[id].peer;
    var retired := RetireWorker(s, id, now);
    var rescued := QueueAll(c, retired, q, Leftover(s.tasks[id]));
    NotEvicted(c, s, q);
    RetireTouches(c, s, id, now);
    RescueTouches(c, retired, q, Leftover(s.tasks[id]), p);
    DropTouches(rescued, q, RemotePeerUnreachable, p);
    DropTouches(rescued, q, RemotePeerBeingEvicted, p);
    var active := rescued.(lastActivity := rescued.lastActivity[q := now]);
    SpawnTouches(c, active, q, 1, ans.dest(q), ans.stake(q), p);
    SamePending(retired, active, ans.dest(q));
  }

  lemma {:induction false} IdentityEffect(c: Config, s: State, identity: Pubkey, order: seq<TaskId>, ans: Answers, p: Pubkey)
    requires Enabled(s, IdentityUpdated(identity, order, ans))
    ensures Effect(c, s, IdentityUpdated(identity, order, ans), UpdateIdentity(c, s, identity, order, ans), p)
  {
    RedialNeverAdds(c, ResetForIdentity(s, identity), seq(|order|, i requires 0 <= i < |order| => s.dials[order[i]]), ans, p);
  }

  /** Events that touch neither queues nor attempts. */
  lemma NoEffect(c: Config, s: State, ev: Event, t: State, p: Pubkey)
    requires Enabled(s, ev) && t.queues == s.queues && t.dialPeers == s.dialPeers
    requires !ev.TxArrived? && !ev.ConnectingDone? && !ev.WorkerDone?
    ensures Effect(c, s, ev, t, p)
  {
  }

  lemma {:induction false} StepEffect(c: Config, s: State, ev: Event, p: Pubkey)
    requires Inv(c, s) && Enabled(s, ev)
    ensures Effect(c, s, ev, Step(c, s, ev), p)
  {
    hide InvExcept, Effect, AcceptTx, HandleConnectingResult, HandleWorkerResult, SpawnAll, UpdateIdentity;
    match ev
    case TxArrived(tx, now, ans) => AcceptEffect(c, s, tx, now, ans, p);
    case ConnectingDone(id, outcome, ans) => ConnectingEffect(c, s, id, outcome, ans, p);
    case WorkerDone(id, mismatch, now, ans) =>
      TaskIsServed(c, s, id);
      WorkerEffect(c, s, id, mismatch, now, ans, p);
    case LeadersPredicted(leaders, ans) => PredictionEffect(c, s, leaders, ans, p);
    case IdentityUpdated(identity, order, ans) => IdentityEffect(c, s, identity, order, ans, p);
    case EvictionTick(plan, fallback) =>
      EvictionTouchesNone(s, plan, fallback);
      NoEffect(c, s, ev, Step(c, s, ev), p);
    case _ => NoEffect(c, s, ev, Step(c, s, ev), p);
  }

  lemma {:induction false} PredictionEffect(c: Config, s: State, leaders: seq<Pubkey>, ans: Answers, p: Pubkey)
    ensures Effect(c, s, LeadersPredicted(leaders, ans), SpawnAll(c, s, Distinct(leaders), 1, ans), p)
  {
    hide SpawnAll;
    SpawnAllNeverAdds(c, s, Distinct(leaders), 1, ans, p);
  }

  lemma EvictionTouchesNone(s: State, plan: seq<Pubkey>, fallback: Option<SocketAddr>)
    ensures var t := DoEvictionIfRequired(s, plan, fallback); t.queues == s.queues && t.dialPeers == s.dialPeers
  {
    hide EvictionsRequired, Evict;
    EvictTouchesNone(s, Elements(plan));
    if fallback.Some? && fallback.value in s.conns {
      EvictTouchesNone(s, s.conns[fallback.value].peers.Keys);
    }
  }

  lemma EvictTouchesNone(s: State, plan: set<Pubkey>)
    ensures Evict(s, plan).queues == s.queues && Evict(s, plan).dialPeers == s.dialPeers
  {
    hide Targets, Companions, CancelTasks;
  }

  // ---------------------------------------------------------------- in every reachable state

  /** A peer that is not stranded becomes so in exactly the events that ask for an address with a
      pending eviction while something waits for the peer. */
  lemma {:induction false} StrandedExactly(c: Config, s: State, ev: Event, p: Pubkey)
    requires Reachable(c, s) && c.maxSendAttempts >= 1 && Enabled(s, ev) && !Stranded(s, p)
    ensures Stranded(Step(c, s, ev), p) <==> Strands(c, s, ev, p)
  {
    hide Inv, Books, Step, Strands, Stranded;
    ReachableKeeps(c, s);
    StepEffect(c, s, ev, p);
  }

  /** A stranded peer stays so, with its queue as it is, until the peer gets another transaction,
      is predicted, or the identity changes. In particular the end of the eviction that stood in
      the way does not help it. */
  lemma {:induction false} StrandedStays(c: Config, s: State, ev: Event, p: Pubkey)
    requires Reachable(c, s) && c.maxSendAttempts >= 1 && Enabled(s, ev) && Stranded(s, p) && !Helps(ev, p)
    ensures Stranded(Step(c, s, ev), p) && Step(c, s, ev).queues[p] == s.queues[p]
  {
    hide Inv, Books, Step, Strands, Helps;
    ReachableKeeps(c, s);
    StepEffect(c, s, ev, p);
  }

  ghost predicate NobodyStranded(s: State) {
    forall p :: !Stranded(s, p)
  }

  /** Nobody is stranded at any time of the run. */
  ghost predicate AlwaysConnecting(c: Config, s: State, evs: seq<Event>)
    decreases |evs|
  {
    NobodyStranded(s) && (evs != [] ==> Enabled(s, evs[0]) && AlwaysConnecting(c, Step(c, s, evs[0]), evs[1..]))
  }

  /** No event of the run strands anybody. */
  ghost predicate NeverStrands(c: Config, s: State, evs: seq<Event>)
    decreases |evs|
  {
    evs != [] ==>
      && Enabled(s, evs[0]) && (forall p :: !Strands(c, s, evs[0], p))
      && NeverStrands(c, Step(c, s, evs[0]), evs[1..])
  }

  /** In a run every waiting peer has an attempt under way at all times if and only if no event
      asks for an address with a pending eviction while something waits. */
  lemma {:induction false} RunConnects(c: Config, s: State, evs: seq<Event>, t: State)
    requires Inv(c, s) && NobodyStranded(s) && Run(c, s, evs, t)
    ensures AlwaysConnecting(c, s, evs) <==> NeverStrands(c, s, evs)
    decreases |evs|
  {
    hide Inv, Step, Strands, Stranded, Enabled;
    if evs != [] {
      var u := Step(c, s, evs[0]);
      forall p ensures Stranded(u, p) <==> Strands(c, s, evs[0], p) {
        assert !Stranded(s, p);
        StepEffect(c, s, evs[0], p);
      }
      StepInv(c, s, evs[0]);
      if NobodyStranded(u) {
        RunConnects(c, u, evs[1..], t);
      }
    }
  }

  // ---------------------------------------------------------------- a run that strands a peer

  /** The only peer with a worker is `p`, whose connection to `a` is to be evicted. */
  ghost predicate EvictsOnly(s: State, p: Pubkey, a: SocketAddr) {
    && s.workers.Keys == {p} && s.dialPeers == map[] && s.queues == map[]
    && ConnectionId(a, 0) in s.pending
  }

  /** A transaction for `p`, a connection to its address `a`, the loss of that address, and a
      transaction for another peer at `a`: that peer waits, and no connection is attempted. */
  lemma {:induction false} StrandingHappens(c: Config, tx: Txn, tx': Txn, a: SocketAddr, identity: Pubkey)
    requires c.capacity >= 1 && c.maxSendAttempts >= 1 && c.maxConnections >= 1 && c.allowAnySize && tx.peer != tx'.peer
    ensures exists s :: Reachable(c, s) && Stranded(s, tx'.peer)
  {
    hide Step, Stranded, Strands, Inv, EvictsOnly;
    var here, gone := At(Some(a)), At(None);
    var s0 := Initial(identity);
    var e0, e1, e2, e3 := TxArrived(tx, 0, here), ConnectingDone(0, Connected, here), AddressesChanged({tx.peer}, gone), TxArrived(tx', 0, here);
    Dials(c, tx, a, identity);
    var s1 := Step(c, s0, e0);
    Establishes(c, s1, tx.peer, a, identity);
    var s2 := Step(c, s1, e1);
    LosesAddress(c, s2, tx.peer, a);
    var s3 := Step(c, s2, e2);
    var s4 := Step(c, s3, e3);
    var evs := [e0, e1, e2];
    assert evs[1..] == [e1, e2] && [e1, e2][1..] == [e2] && [e2][1..] == [];
    assert Run(c, s3, [], s3);
    assert Run(c, s2, [e2], s3);
    assert Run(c, s1, [e1, e2], s3);
    assert Run(c, s0, evs, s3);
    IsRefused(c, s3, tx.peer, tx', a);
    StrandedExactly(c, s3, e3, tx'.peer);
    var longer := [e0, e1, e2, e3];
    assert longer[1..] == [e1, e2, e3] && [e1, e2, e3][1..] == [e2, e3] && [e2, e3][1..] == [e3] && [e3][1..] == [];
    assert Run(c, s4, [], s4);
    assert Run(c, s3, [e3], s4);
    assert Run(c, s2, [e2, e3], s4);
    assert Run(c, s1, [e1, e2, e3], s4);
    assert Run(c, s0, longer, s4);
  }

  function At(dest: Option<SocketAddr>): Answers {
    Answers(p => dest, p => dest, p => 0)
  }

  lemma {:induction false} Dials(c: Config, tx: Txn, a: SocketAddr, identity: Pubkey)
    requires c.capacity >= 1 && c.maxConnections >= 1 && c.allowAnySize
    ensures var s := Step(c, Initial(identity), TxArrived(tx, 0, At(Some(a))));
            && s.workers == map[] && s.conns == map[] && s.nextVersion == 0 && s.pending == {} && s.parked == {}
            && s.queues.Keys == {tx.peer} && s.dialPeers == map[tx.peer := 0]
            && s.dials == map[0 := Dial(identity, [tx.peer], a, 1)]
  {
    var s := Initial(identity).(lastActivity := map[tx.peer := 0], accepted := multiset{} + multiset{tx});
    var queued := QueueOrDrop(c, s, tx.peer, Entry(tx, 1));
    assert Step(c, Initial(identity), TxArrived(tx, 0, At(Some(a)))) == StartDial(c, queued, tx.peer, a, 1);
  }

  lemma {:induction false} Establishes(c: Config, s: State, p: Pubkey, a: SocketAddr, identity: Pubkey)
    requires s.workers == map[] && s.conns == map[] && s.nextVersion == 0 && s.pending == {} && s.parked == {}
    requires s.queues.Keys == {p} && s.dialPeers == map[p := 0] && s.dials == map[0 := Dial(identity, [p], a, 1)]
    ensures Enabled(s, ConnectingDone(0, Connected, At(Some(a))))
    ensures var t := Step(c, s, ConnectingDone(0, Connected, At(Some(a))));
            && t.workers.Keys == {p} && t.workers[p].addr == a && t.workers[p].version == 0
            && t.dialPeers == map[] && t.queues == map[]
  {
    hide InstallWorker;
    var ended := EndDial(s, 0);
    var u := Connect(ended, a);
    var t := InstallWorker(u, p, a, 0);
    assert [p][1..] == [];
    assert InstallAll(u, [p], a, At(Some(a))) == InstallAll(t, [], a, At(Some(a))) == t;
    InstalledFields(u, p, a, 0);
    InstalledHandle(u, p, a, 0);
    assert ended.dialPeers == map[] && t.queues.Keys == {};
  }

  lemma InstalledHandle(s: State, q: Pubkey, addr: SocketAddr, stake: nat)
    requires q !in s.workers && addr in s.conns
    ensures var t := InstallWorker(s, q, addr, stake);
            q in t.workers && t.workers[q].addr == addr && t.workers[q].version == s.conns[addr].version
  {
  }

  lemma LosesAddress(c: Config, s: State, p: Pubkey, a: SocketAddr)
    requires s.workers.Keys == {p} && s.workers[p].addr == a && s.workers[p].version == 0
    requires s.dialPeers == map[] && s.queues == map[]
    ensures EvictsOnly(Step(c, s, AddressesChanged({p}, At(None))), p, a)
  {
    assert Vanished(s, p, At(None));
    assert ConnectionId(a, 0) in VanishedIds(s, {p}, At(None));
  }

  lemma IsRefused(c: Config, s: State, p: Pubkey, tx: Txn, a: SocketAddr)
    requires EvictsOnly(s, p, a) && tx.peer != p && c.capacity >= 1 && c.allowAnySize
    ensures !Stranded(s, tx.peer) && Strands(c, s, TxArrived(tx, 0, At(Some(a))), tx.peer)
  {
    assert ConnectionId(a, 0).addr == a;
    assert PendingAt(s, a);
  }
}
