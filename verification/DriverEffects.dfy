/** What every event of the driver brings about, peer by peer and connection by connection, in the
    states a run can reach. */
module DriverEffects {
  import opened Types
  import opened Bags
  import opened DriverState
  import opened DriverInvariant
  import opened DriverSteps
  import opened DriverClosing
  import opened DriverAsking
  import opened DriverRuns
  import opened DriverTheorems

  // ---------------------------------------------------------------- an eviction round

  /** Whom a round is to evict: the planned peers or, with nothing planned and nothing pending, all
      peers of the connection chosen instead. */
  ghost function Planned(s: State, plan: seq<Pubkey>, fallback: Option<SocketAddr>): set<Pubkey> {
    if plan != [] || s.pending != {} then Elements(plan)
    else set p | p in s.workers && fallback == Some(s.workers[p].addr)
  }

  /** The peer's worker uses the connection of a planned peer. */
  ghost predicate Hit(s: State, planned: set<Pubkey>, q: Pubkey) {
    q in s.workers && exists p :: p in planned && p in s.workers && s.workers[p].addr == s.workers[q].addr
  }

  /** The connection serves a planned peer. */
  ghost predicate HitConnection(s: State, planned: set<Pubkey>, e: ConnectionId) {
    exists p :: p in planned && p in s.workers && e == ConnectionId(s.workers[p].addr, s.workers[p].version)
  }

  lemma {:induction false} EvictExactly(c: Config, s: State, planned: set<Pubkey>, e: ConnectionId, q: Pubkey, id: TaskId)
    requires Inv(c, s)
    ensures var t := Evict(s, planned);
            && t == s.(pending := t.pending, evicted := t.evicted, tasks := t.tasks)
            && (e in t.pending <==> e in s.pending || HitConnection(s, planned, e))
            && (q in t.evicted <==> q in s.evicted || Hit(s, planned, q))
            && (id in t.tasks <==> id in s.tasks)
            && (id in s.tasks ==> t.tasks[id] == s.tasks[id].(cancelled := s.tasks[id].cancelled || Hit(s, planned, s.tasks[id].peer)))
  {
    hide InvExcept, Hit, HitConnection, Companions, Targets, CancelTasks;
    CompanionsExactly(c, s, planned, q);
    TargetsExactly(s, planned, e);
    if id in s.tasks {
      CompanionsExactly(c, s, planned, s.tasks[id].peer);
    }
    CancelExactly(s.tasks, Companions(s, planned), id);
    EvictFields(s, planned);
  }

  lemma EvictFields(s: State, planned: set<Pubkey>)
    ensures var t := Evict(s, planned);
            && t == s.(pending := t.pending, evicted := t.evicted, tasks := t.tasks)
            && t.pending == s.pending + Targets(s, planned) && t.evicted == s.evicted + Companions(s, planned)
            && t.tasks == CancelTasks(s.tasks, Companions(s, planned))
  {
    hide Targets, Companions, CancelTasks;
  }

  lemma CancelExactly(tasks: map<TaskId, Worker>, peers: set<Pubkey>, id: TaskId)
    ensures id in CancelTasks(tasks, peers) <==> id in tasks
    ensures id in tasks ==> CancelTasks(tasks, peers)[id] == tasks[id].(cancelled := tasks[id].cancelled || tasks[id].peer in peers)
  {
  }

  lemma TargetsExactly(s: State, planned: set<Pubkey>, e: ConnectionId)
    ensures e in Targets(s, planned) <==> HitConnection(s, planned, e)
  {
  }

  lemma {:induction false} CompanionsExactly(c: Config, s: State, planned: set<Pubkey>, q: Pubkey)
    requires Inv(c, s)
    ensures q in Companions(s, planned) <==> Hit(s, planned, q)
  {
    if q in Companions(s, planned) {
      var p :| p in planned && p in s.workers && s.workers[p].addr in s.conns && q in s.conns[s.workers[p].addr].peers;
      assert Staffed(s.workers[p].addr, s.workers, s.conns);
    }
    if Hit(s, planned, q) {
      var p :| p in planned && p in s.workers && s.workers[p].addr == s.workers[q].addr;
      assert Served(q, s.workers, s.conns);
    }
  }

  /** What one eviction round does, exactly. When more attempts wait than evictions are pending, the
      connections of the planned peers become pending, every peer on them is being evicted and its
      worker told to stop, and nothing else happens. Otherwise nothing happens at all. */
  lemma {:induction false} EvictionRound(c: Config, s: State, plan: seq<Pubkey>, fallback: Option<SocketAddr>, e: ConnectionId, q: Pubkey, id: TaskId)
    requires At(c, s)
    ensures var t, planned := Step(c, s, EvictionTick(plan, fallback)), Planned(s, plan, fallback);
            && (|s.blocked| <= |s.pending| ==> t == s)
            && t == s.(pending := t.pending, evicted := t.evicted, tasks := t.tasks)
            && (|s.blocked| > |s.pending| ==>
                  && (e in t.pending <==> e in s.pending || HitConnection(s, planned, e))
                  && (q in t.evicted <==> q in s.evicted || Hit(s, planned, q))
                  && (id in t.tasks <==> id in s.tasks)
                  && (id in s.tasks ==> t.tasks[id] == s.tasks[id].(cancelled := s.tasks[id].cancelled || Hit(s, planned, s.tasks[id].peer))))
  {
    hide Inv, Books, Evict, Hit, HitConnection;
    ReachableKeeps(c, s);
    var planned := Planned(s, plan, fallback);
    EvictExactly(c, s, planned, e, q, id);
    FallbackPeers(c, s, fallback);
    if fallback.None? || fallback.value !in s.conns {
      NobodyPlanned(c, s, e, q, id);
    }
    RoundIsEvict(s, plan, fallback);
  }

  lemma RoundIsEvict(s: State, plan: seq<Pubkey>, fallback: Option<SocketAddr>)
    ensures var t := DoEvictionIfRequired(s, plan, fallback);
            if |s.blocked| <= |s.pending| then t == s
            else if plan != [] || s.pending != {} then t == Evict(s, Elements(plan))
            else if fallback.Some? && fallback.value in s.conns then t == Evict(s, s.conns[fallback.value].peers.Keys)
            else t == s
  {
    hide Evict;
  }

  lemma {:induction false} FallbackPeers(c: Config, s: State, fallback: Option<SocketAddr>)
    requires Inv(c, s)
    ensures fallback.Some? && fallback.value in s.conns ==>
              s.conns[fallback.value].peers.Keys == set p | p in s.workers && fallback == Some(s.workers[p].addr)
    ensures fallback.None? || fallback.value !in s.conns ==> (set p | p in s.workers && fallback == Some(s.workers[p].addr)) == {}
  {
    forall p | p in s.workers ensures s.workers[p].addr in s.conns && p in s.conns[s.workers[p].addr].peers {
      assert Served(p, s.workers, s.conns);
    }
    if fallback.Some? && fallback.value in s.conns {
      assert Staffed(fallback.value, s.workers, s.conns);
    }
  }

  lemma NobodyPlanned(c: Config, s: State, e: ConnectionId, q: Pubkey, id: TaskId)
    ensures !HitConnection(s, {}, e) && !Hit(s, {}, q)
    ensures id in s.tasks ==> !Hit(s, {}, s.tasks[id].peer)
    ensures id in s.tasks ==> s.tasks[id] == s.tasks[id].(cancelled := s.tasks[id].cancelled || false)
  {
  }

  /** Whoever is planned and has a worker loses the connection, together with all its neighbours. */
  lemma PlannedAreEvicted(c: Config, s: State, plan: seq<Pubkey>, fallback: Option<SocketAddr>, p: Pubkey, q: Pubkey)
    requires At(c, s) && |s.blocked| > |s.pending| && p in plan && p in s.workers
    requires q in s.workers && s.workers[q].addr == s.workers[p].addr
    ensures var t := Step(c, s, EvictionTick(plan, fallback));
            && ConnectionId(s.workers[p].addr, s.workers[p].version) in t.pending
            && q in t.evicted && q in t.workers && t.workers[q].task in t.tasks && t.tasks[t.workers[q].task].cancelled
  {
    hide Step, Inv, Books;
    var e := ConnectionId(s.workers[p].addr, s.workers[p].version);
    ReachableKeeps(c, s);
    WorkerTask(c, s, q);
    EvictionRound(c, s, plan, fallback, e, q, s.workers[q].task);
    assert p in Planned(s, plan, fallback);
  }

  /** With nothing planned and nothing pending the least staked connection is evicted in the same way,
      as long as it has a worker; without one nothing happens. */
  lemma LeastStakedIsEvicted(c: Config, s: State, a: SocketAddr, q: Pubkey)
    requires At(c, s) && |s.blocked| > 0 && s.pending == {} && LeastStaked(s, a)
    ensures var t := Step(c, s, EvictionTick([], Some(a)));
            && (q in s.workers && s.workers[q].addr == a ==>
                  && t.pending == {ConnectionId(a, s.conns[a].version)}
                  && q in t.evicted && q in t.workers && t.workers[q].task in t.tasks && t.tasks[t.workers[q].task].cancelled)
            && ((forall p :: p in s.workers ==> s.workers[p].addr != a) ==> t.pending == {} && t.evicted == s.evicted)
  {
    hide Step, Inv, Books;
    ReachableKeeps(c, s);
    var t := Step(c, s, EvictionTick([], Some(a)));
    forall e ensures e in t.pending <==> HitConnection(s, Planned(s, [], Some(a)), e) {
      EvictionRound(c, s, [], Some(a), e, q, 0);
    }
    forall p ensures p in t.evicted <==> p in s.evicted || Hit(s, Planned(s, [], Some(a)), p) {
      EvictionRound(c, s, [], Some(a), ConnectionId(a, 0), p, 0);
    }
    WorkersThere(c, s, a);
    if q in s.workers && s.workers[q].addr == a {
      WorkerTask(c, s, q);
      EvictionRound(c, s, [], Some(a), ConnectionId(a, 0), q, s.workers[q].task);
    }
  }

  lemma WorkersThere(c: Config, s: State, a: SocketAddr)
    requires Inv(c, s) && a in s.conns
    ensures forall p :: p in s.workers && s.workers[p].addr == a ==> s.workers[p].version == s.conns[a].version
  {
    forall p | p in s.workers && s.workers[p].addr == a ensures s.workers[p].version == s.conns[a].version {
      assert Served(p, s.workers, s.conns);
    }
  }

  // ---------------------------------------------------------------- address changes

  /** What a batch of address changes does, exactly: a worker is told to stop if its peer is in the
      batch and now at another address or at none, and a connection becomes pending if one of its
      peers in the batch is at none. */
  lemma {:induction false} AddressChangeExactly(c: Config, s: State, changed: set<Pubkey>, ans: Answers, e: ConnectionId, id: TaskId)
    requires At(c, s)
    ensures var t := Step(c, s, AddressesChanged(changed, ans));
            && t == s.(pending := t.pending, tasks := t.tasks)
            && (id in t.tasks <==> id in s.tasks)
            && (id in s.tasks ==>
                  t.tasks[id] == s.tasks[id].(cancelled := s.tasks[id].cancelled || (s.tasks[id].peer in changed && ans.dest(s.tasks[id].peer) != Some(s.tasks[id].addr))))
            && (e in t.pending <==> e in s.pending || VanishedFrom(s, changed, ans, e))
  {
    hide Inv, Books, MovedPeers, VanishedIds, VanishedFrom, CancelTasks;
    ReachableKeeps(c, s);
    CancelExactly(s.tasks, MovedPeers(s, changed, ans), id);
    VanishedExactly(s, changed, ans, e);
    if id in s.tasks {
      MovedExactly(c, s, changed, ans, id);
    }
    ChangeFields(s, changed, ans);
  }

  /** A peer of the batch has lost the address of this connection, on which it has a worker. */
  ghost predicate VanishedFrom(s: State, changed: set<Pubkey>, ans: Answers, e: ConnectionId) {
    exists p :: p in changed && p in s.workers && ans.dest(p).None? && e == ConnectionId(s.workers[p].addr, s.workers[p].version)
  }

  lemma VanishedExactly(s: State, changed: set<Pubkey>, ans: Answers, e: ConnectionId)
    ensures e in VanishedIds(s, changed, ans) <==> VanishedFrom(s, changed, ans, e)
  {
    if VanishedFrom(s, changed, ans, e) {
      var p :| p in changed && p in s.workers && ans.dest(p).None? && e == ConnectionId(s.workers[p].addr, s.workers[p].version);
      assert Vanished(s, p, ans);
    }
  }

  lemma MovedExactly(c: Config, s: State, changed: set<Pubkey>, ans: Answers, id: TaskId)
    requires Inv(c, s) && id in s.tasks
    ensures s.tasks[id].peer in MovedPeers(s, changed, ans) <==> s.tasks[id].peer in changed && ans.dest(s.tasks[id].peer) != Some(s.tasks[id].addr)
  {
    assert TaskOk(c, id, s.workers, s.tasks, s.nextTask);
    assert OwnsTask(s.tasks[id].peer, s.workers, s.tasks);
  }

  lemma ChangeFields(s: State, changed: set<Pubkey>, ans: Answers)
    ensures var t := HandleAddrChange(s, changed, ans);
            && t == s.(pending := t.pending, tasks := t.tasks)
            && t.pending == s.pending + VanishedIds(s, changed, ans) && t.tasks == CancelTasks(s.tasks, MovedPeers(s, changed, ans))
  {
    hide VanishedIds, MovedPeers, CancelTasks;
  }

  // ---------------------------------------------------------------- finished connection attempts

  /** The state in which the failed attempt is retried: only its own records are gone. */
  lemma {:induction false} EndedFields(c: Config, s: State, id: TaskId)
    requires Inv(c, s) && id in s.dials
    ensures var dial, u := s.dials[id], EndDial(s, id);
            && NoDuplicates(dial.peers) && u == s.(dials := u.dials, dialPeers := u.dialPeers, dialAddrs := u.dialAddrs)
            && u.dials == s.dials - {id} && u.dialAddrs == s.dialAddrs - {dial.addr}
            && (forall p :: p in dial.peers ==> p !in u.dialPeers && p !in s.workers)
            && (forall p :: p !in dial.peers ==> (p in u.dialPeers <==> p in s.dialPeers) && (p in s.dialPeers ==> u.dialPeers[p] == s.dialPeers[p]))
  {
    assert DialOk(id, s.dials, s.dialPeers, s.dialAddrs, s.nextTask);
  }

  lemma {:induction false} FailureAsks(c: Config, s: State, id: TaskId, ans: Answers)
    requires Inv(c, s) && Enabled(s, ConnectingDone(id, ConnectionFailed, ans)) && s.dials[id].attempt < c.maxConnectionAttempts
    ensures Asked(c, EndDial(s, id), Step(c, s, ConnectingDone(id, ConnectionFailed, ans)), Elements(s.dials[id].peers), RetryOrders(s.dials[id], ans))
  {
    hide InvExcept, Asked, RetryAll;
    EndedFields(c, s, id);
    EndedDial(c, s, id);
    RetryAllAsks(c, EndDial(s, id), s.dials[id].peers, s.dials[id], ans);
  }

  /** The outcome for one peer of a failed attempt that is retried. */
  lemma {:induction false} FailureIsRetried(c: Config, s: State, id: TaskId, ans: Answers, p: Pubkey)
    requires At(c, s) && Enabled(s, ConnectingDone(id, ConnectionFailed, ans)) && s.dials[id].attempt < c.maxConnectionAttempts
    requires p in s.dials[id].peers
    ensures var t := Step(c, s, ConnectingDone(id, ConnectionFailed, ans));
            if ans.dest(p).None? || ans.again(p).None? then GivenUp(s, t, p)
            else
              var a := ans.again(p).value;
              if PendingAt(s, a) then p !in t.dialPeers && SameQueue(s, t, p)
              else if a in s.conns then Serves(s, t, p, a, ans.stake(p))
              else Dials(s, t, p, a) && (a in s.dialAddrs && s.dialAddrs[a] != id ==> t.dialPeers[p] == s.dialAddrs[a])
  {
    hide Inv, Books, Asked, Step, PendingAt, RetryOrders;
    ReachableKeeps(c, s);
    FailureAsks(c, s, id, ans);
    EndedFields(c, s, id);
    var u, t := EndDial(s, id), Step(c, s, ConnectingDone(id, ConnectionFailed, ans));
    var r := RetryOrders(s.dials[id], ans);
    RetryOrdersFor(s.dials[id], ans, p);
    AskedFor(c, u, t, Elements(s.dials[id].peers), r, p);
    SamePendingFor(s, u, ans.again(p));
    if ans.again(p).Some? && ans.again(p).value in s.dialAddrs && s.dialAddrs[ans.again(p).value] != id {
      StepInv(c, s, ConnectingDone(id, ConnectionFailed, ans));
      DialsAddress(c, s, ans.again(p).value);
      OldAttempt(c, u, t, Elements(s.dials[id].peers), r, s.dialAddrs[ans.again(p).value], p);
    }
  }

  lemma RetryOrdersFor(dial: Dial, ans: Answers, p: Pubkey)
    ensures var r := RetryOrders(dial, ans);
            && r.to(p) == (if ans.dest(p).None? then None else ans.again(p))
            && r.attempt(p) == (if ans.dest(p) == Some(dial.addr) then dial.attempt + 1 else 1)
            && r.stake(p) == ans.stake(p)
  {
  }

  lemma AskedFor(c: Config, s: State, t: State, peers: set<Pubkey>, r: Orders, p: Pubkey)
    requires Asked(c, s, t, peers, r)
    ensures if p in peers then Outcome(s, t, p, r) else Still(s, t, p)
    ensures Frame(s, t) && DialsGrow(c, s, t, peers, r)
  {
  }

  lemma SamePendingFor(s: State, t: State, a: Option<SocketAddr>)
    requires t.pending == s.pending
    ensures a.Some? ==> PendingAt(t, a.value) == PendingAt(s, a.value)
  {
  }

  /** An old attempt to the peer's address is the one the peer joins. */
  lemma {:induction false} OldAttempt(c: Config, u: State, t: State, peers: set<Pubkey>, r: Orders, i: TaskId, p: Pubkey)
    requires Asked(c, u, t, peers, r) && Inv(c, t) && i in u.dials
    ensures p in t.dialPeers && t.dialPeers[p] in t.dials && t.dials[t.dialPeers[p]].addr == u.dials[i].addr ==> t.dialPeers[p] == i
  {
    hide Frame, Outcome, Started;
    assert GoesOn(u, t, i);
    assert DialOk(i, t.dials, t.dialPeers, t.dialAddrs, t.nextTask);
    if p in t.dialPeers && t.dialPeers[p] in t.dials {
      assert DialOk(t.dialPeers[p], t.dials, t.dialPeers, t.dialAddrs, t.nextTask);
    }
  }

  /** The number of an attempt that a failure starts: the failure counts for a first peer that stays
      where it was, and counting begins anew for one that moved. Attempts that were under way
      elsewhere keep their number. */
  lemma {:induction false} FailureIsCounted(c: Config, s: State, id: TaskId, ans: Answers, i: TaskId)
    requires At(c, s) && Enabled(s, ConnectingDone(id, ConnectionFailed, ans)) && s.dials[id].attempt < c.maxConnectionAttempts
    ensures var t := Step(c, s, ConnectingDone(id, ConnectionFailed, ans));
            && (i in t.dials && i !in s.dials ==>
                  var d := t.dials[i];
                  && d.peers != [] && d.peers[0] in s.dials[id].peers && d.identity == s.identity
                  && ans.dest(d.peers[0]).Some? && ans.again(d.peers[0]) == Some(d.addr)
                  && d.attempt == (if ans.dest(d.peers[0]) == Some(s.dials[id].addr) then s.dials[id].attempt + 1 else 1)
                  && (i in t.parked <==> |s.conns| >= c.maxConnections))
            && (i in s.dials && i != id ==>
                  i in t.dials && t.dials[i].attempt == s.dials[i].attempt && t.dials[i].addr == s.dials[i].addr && s.dials[i].peers <= t.dials[i].peers)
            && id !in t.dials
  {
    hide Inv, Books, Asked, Step, RetryOrders, Frame, Outcome;
    ReachableKeeps(c, s);
    FailureAsks(c, s, id, ans);
    EndedFields(c, s, id);
    NextTaskIsNew(c, s);
    var u, t := EndDial(s, id), Step(c, s, ConnectingDone(id, ConnectionFailed, ans));
    var r := RetryOrders(s.dials[id], ans);
    AskedFor(c, u, t, Elements(s.dials[id].peers), r, s.identity);
    NewAreNew(c, u, t, Elements(s.dials[id].peers), r);
    if i in t.dials && i !in s.dials {
      assert Started(c, u, t, i, Elements(s.dials[id].peers), r);
      RetryOrdersFor(s.dials[id], ans, t.dials[i].peers[0]);
    }
    if i in s.dials && i != id {
      assert GoesOn(u, t, i);
    }
  }

  lemma NewAreNew(c: Config, u: State, t: State, peers: set<Pubkey>, r: Orders)
    requires DialsGrow(c, u, t, peers, r)
    ensures forall i :: i in t.dials && i !in u.dials ==> i >= u.nextTask
  {
    forall i | i in t.dials && i !in u.dials ensures i >= u.nextTask {
      assert Started(c, u, t, i, peers, r);
    }
  }

  /** With no attempts left, or after any other failure, every peer of the attempt is given up and its
      whole queue reported. */
  lemma {:induction false} LastFailureGivesUp(c: Config, s: State, id: TaskId, outcome: ConnectOutcome, ans: Answers, p: Pubkey)
    requires At(c, s) && Enabled(s, ConnectingDone(id, outcome, ans)) && !outcome.Connected?
    requires outcome.ConnectionFailed? ==> s.dials[id].attempt >= c.maxConnectionAttempts
    requires p in s.dials[id].peers
    ensures GivenUp(s, Step(c, s, ConnectingDone(id, outcome, ans)), p)
  {
    hide Inv, Books, Asked, UnreachableAll;
    ReachableKeeps(c, s);
    EndedFields(c, s, id);
    var r := Orders(q => None, q => 0, q => 0);
    UnreachableAllAsks(c, EndDial(s, id), s.dials[id].peers, r);
    AskedFor(c, EndDial(s, id), UnreachableAll(EndDial(s, id), s.dials[id].peers), Elements(s.dials[id].peers), r, p);
  }

  ghost function ServeOrders(a: SocketAddr, ans: Answers): Orders {
    Orders(p => Some(a), p => 0, p => ans.stake(p))
  }

  lemma {:induction false} ConnectedAsks(c: Config, s: State, id: TaskId, ans: Answers)
    requires Inv(c, s) && id in s.dials && id !in s.parked
    ensures var a, u := s.dials[id].addr, Connect(EndDial(s, id), s.dials[id].addr);
            && Asked(c, u, HandleConnectingResult(c, s, id, Connected, ans), Elements(s.dials[id].peers), ServeOrders(a, ans))
            && !PendingAt(u, a)
  {
    hide InvExcept, Asked, InstallAll, PendingAt;
    var a, ended := s.dials[id].addr, EndDial(s, id);
    var u := Connect(ended, a);
    EndedFields(c, s, id);
    EndedDial(c, s, id);
    AllTasksBelow(c, s);
    ConnectKeeps(c, ended, a);
    InstallAllAsks(c, u, s.dials[id].peers, a, ans, ServeOrders(a, ans));
  }

  /** A connection that is established serves every peer that waited for it: each has a new worker
      over the new version of the connection, which holds its whole queue. */
  lemma {:induction false} ConnectedServesAll(c: Config, s: State, id: TaskId, ans: Answers, p: Pubkey)
    requires At(c, s) && Enabled(s, ConnectingDone(id, Connected, ans)) && p in s.dials[id].peers
    ensures var t, a := Step(c, s, ConnectingDone(id, Connected, ans)), s.dials[id].addr;
            && p in t.workers && t.workers[p].addr == a && t.workers[p].version == s.nextVersion
            && a in t.conns && t.conns[a].version == s.nextVersion
            && t.workers[p].task in t.tasks && t.tasks[t.workers[p].task] == Worker(p, a, [], Lookup(s.queues, p, []), false)
            && p !in t.queues && p !in t.dialPeers && p in t.peerStakes && t.peerStakes[p] == ans.stake(p)
  {
    hide Inv, Books, Asked, Step, HandleConnectingResult, Still, DialsGrow, PendingAt;
    ReachableKeeps(c, s);
    var a, t := s.dials[id].addr, Step(c, s, ConnectingDone(id, Connected, ans));
    ConnectedStep(c, s, id, ans);
    ConnectedAsks(c, s, id, ans);
    AskedFor(c, Connect(EndDial(s, id), a), t, Elements(s.dials[id].peers), ServeOrders(a, ans), p);
  }

  lemma ConnectedStep(c: Config, s: State, id: TaskId, ans: Answers)
    requires Enabled(s, ConnectingDone(id, Connected, ans))
    ensures Step(c, s, ConnectingDone(id, Connected, ans)) == HandleConnectingResult(c, s, id, Connected, ans)
  {
    hide HandleConnectingResult;
  }

  lemma AllTasksBelow(c: Config, s: State)
    requires Inv(c, s)
    ensures TasksBelow(s)
  {
    forall id | id in s.tasks ensures id < s.nextTask {
      assert TaskOk(c, id, s.workers, s.tasks, s.nextTask);
    }
    NextTaskIsNew(c, s);
  }

  // ---------------------------------------------------------------- identity updates

  /** What the peers of the old attempts are asked for with. */
  ghost function ReplayOrders(s: State, ans: Answers): Orders {
    Orders(p => ans.dest(p), p => if p in s.dialPeers && s.dialPeers[p] in s.dials then s.dials[s.dialPeers[p]].attempt else 0, p => ans.stake(p))
  }

  lemma {:induction false} AllPeersOf(dials: seq<Dial>, p: Pubkey)
    ensures p in AllPeers(dials) <==> exists i :: 0 <= i < |dials| && p in dials[i].peers
    decreases |dials|
  {
    if dials != [] {
      AllPeersOf(dials[1..], p);
      if i :| 0 <= i < |dials| && p in dials[i].peers {
        assert i > 0 ==> dials[i] == dials[1..][i - 1];
      }
      if j :| 0 <= j < |dials[1..]| && p in dials[1..][j].peers {
        assert dials[j + 1] == dials[1..][j];
      }
    }
  }

  ghost function OldDials(s: State, order: seq<TaskId>): seq<Dial>
    requires forall id :: id in order ==> id in s.dials
  {
    seq(|order|, i requires 0 <= i < |order| => s.dials[order[i]])
  }

  lemma {:induction false} ReplayPeers(c: Config, s: State, order: seq<TaskId>, p: Pubkey)
    requires Inv(c, s) && forall id :: id in order <==> id in s.dials
    ensures p in AllPeers(OldDials(s, order)) <==> p in s.dialPeers
    ensures forall i :: 0 <= i < |order| && p in OldDials(s, order)[i].peers ==> p in s.dialPeers && s.dialPeers[p] == order[i]
    ensures forall i :: 0 <= i < |order| ==> 1 <= OldDials(s, order)[i].attempt <= Max(1, c.maxConnectionAttempts)
  {
    var dials := OldDials(s, order);
    AllPeersOf(dials, p);
    forall i | 0 <= i < |order|
      ensures p in dials[i].peers ==> p in s.dialPeers && s.dialPeers[p] == order[i]
      ensures 1 <= dials[i].attempt <= Max(1, c.maxConnectionAttempts)
    {
      assert order[i] in order;
      assert DialOk(order[i], s.dials, s.dialPeers, s.dialAddrs, s.nextTask);
      assert DialCurrent(c, order[i], s.dials, s.identity);
    }
    if p in s.dialPeers {
      assert PeerDials(p, s.dials, s.dialPeers);
      assert s.dialPeers[p] in order;
      var i :| 0 <= i < |order| && order[i] == s.dialPeers[p];
      assert p in dials[i].peers;
    }
  }

  lemma {:induction false} ReplayAsks(c: Config, s: State, identity: Pubkey, order: seq<TaskId>, ans: Answers)
    requires Inv(c, s) && Enabled(s, IdentityUpdated(identity, order, ans))
    ensures Asked(c, ResetForIdentity(s, identity), Step(c, s, IdentityUpdated(identity, order, ans)), s.dialPeers.Keys, ReplayOrders(s, ans))
  {
    hide InvExcept, Asked, Redial, ResetForIdentity, AllPeers;
    var r, dials := ReplayOrders(s, ans), OldDials(s, order);
    forall p ensures p in AllPeers(dials) <==> p in s.dialPeers {
      ReplayPeers(c, s, order, p);
    }
    forall i, p | 0 <= i < |dials| && p in dials[i].peers ensures r.attempt(p) == dials[i].attempt {
      ReplayPeers(c, s, order, p);
      assert order[i] in order;
    }
    ReplayPeers(c, s, order, s.identity);
    ResetInv(c, s, identity);
    RedialAsks(c, ResetForIdentity(s, identity), dials, ans, r);
    NothingLeft(s, identity);
    assert AllPeers(dials) == s.dialPeers.Keys;
    assert Wanting(ResetForIdentity(s, identity), AllPeers(dials)) == s.dialPeers.Keys;
  }

  lemma NothingLeft(s: State, identity: Pubkey)
    ensures var u := ResetForIdentity(s, identity);
            && u.dialPeers == map[] && u.workers == map[] && u.queues == map[] && u.dials == map[] && u.conns == map[]
            && u.pending == {} && u.identity == identity && u.tasks == map[] && u.nextTask == s.nextTask
  {
  }

  /** What an identity update replays: a peer has an attempt afterwards if and only if it had one
      before and its address is known. That attempt goes to this address under the new identity, with
      the number of an old attempt of a peer at the same address, which is the peer's own if it is
      alone there. No worker, waiting queue or connection is left. */
  lemma {:induction false} IdentityUpdateReplays(c: Config, s: State, identity: Pubkey, order: seq<TaskId>, ans: Answers, p: Pubkey)
    requires At(c, s) && Enabled(s, IdentityUpdated(identity, order, ans))
    ensures var t := Step(c, s, IdentityUpdated(identity, order, ans));
            && t.identity == identity && t.workers == map[] && t.queues == map[] && t.conns == map[]
            && (p in t.dialPeers <==> p in s.dialPeers && ans.dest(p).Some?)
            && (p in t.dialPeers ==> t.dialPeers[p] in t.dials && Replayed(s, t.dials[t.dialPeers[p]], identity, ans, p))
  {
    hide Inv, Books, Asked, Step, ResetForIdentity;
    ReachableKeeps(c, s);
    ReplayAsks(c, s, identity, order, ans);
    NothingLeft(s, identity);
    var ev := IdentityUpdated(identity, order, ans);
    var u, t, r := ResetForIdentity(s, identity), Step(c, s, ev), ReplayOrders(s, ans);
    AskedFor(c, u, t, s.dialPeers.Keys, r, p);
    NoWorkersAsked(c, u, t, s.dialPeers.Keys, r);
    DialingPeers(c, s);
    if p in t.dialPeers {
      assert Started(c, u, t, t.dialPeers[p], s.dialPeers.Keys, r);
      assert FirstThere(s, ans, t.dials[t.dialPeers[p]], t.dials[t.dialPeers[p]].peers[0]);
    }
  }

  /** The attempt is a replay of an old one for `p`. */
  ghost predicate Replayed(s: State, d: Dial, identity: Pubkey, ans: Answers, p: Pubkey) {
    && d.identity == identity && ans.dest(p) == Some(d.addr)
    && (exists q :: FirstThere(s, ans, d, q))
    && ((forall q :: q in s.dialPeers && ans.dest(q) == ans.dest(p) ==> q == p) ==> FirstThere(s, ans, d, p))
  }

  /** The attempt carries the number that the old attempt of `q` had, and `q` is at its address. */
  ghost predicate FirstThere(s: State, ans: Answers, d: Dial, q: Pubkey) {
    && q in s.dialPeers && s.dialPeers[q] in s.dials && q in d.peers
    && ans.dest(q) == Some(d.addr) && d.attempt == s.dials[s.dialPeers[q]].attempt
  }

  lemma {:induction false} DialingPeers(c: Config, s: State)
    requires Inv(c, s)
    ensures forall q :: q in s.dialPeers ==> s.dialPeers[q] in s.dials
  {
    forall q | q in s.dialPeers ensures s.dialPeers[q] in s.dials {
      assert PeerDials(q, s.dials, s.dialPeers);
    }
  }

  /** Without connections and pending evictions asking leaves no workers and no queues behind, if
      there were none. */
  lemma {:induction false} NoWorkersAsked(c: Config, u: State, t: State, peers: set<Pubkey>, r: Orders)
    requires Asked(c, u, t, peers, r) && u.conns == map[] && u.workers == map[] && u.queues == map[] && u.pending == {}
    ensures t.workers == map[] && t.queues == map[] && t.conns == map[]
  {
    forall p ensures p !in t.workers && p !in t.queues {
      if p in peers {
        assert Outcome(u, t, p, r);
      } else {
        assert Still(u, t, p);
      }
    }
    assert t.conns.Keys == {};
  }

  // ---------------------------------------------------------------- prediction

  /** A predicted leader that has neither a worker nor an attempt is asked for; nobody else is
      concerned, and an attempt that is started has number 1. */
  lemma {:induction false} PredictionAsks(c: Config, s: State, leaders: seq<Pubkey>, ans: Answers)
    requires At(c, s)
    ensures Asked(c, s, Step(c, s, LeadersPredicted(leaders, ans)), Wanting(s, Elements(leaders)), Orders(p => ans.dest(p), p => 1, p => ans.stake(p)))
  {
    hide Inv, Books, Asked, SpawnAll;
    ReachableKeeps(c, s);
    var r := Orders(p => ans.dest(p), p => 1, p => ans.stake(p));
    SpawnAllAsks(c, s, Distinct(leaders), 1, ans, r);
    assert Elements(Distinct(leaders)) == Elements(leaders);
  }

  // ---------------------------------------------------------------- the sweep and the send call

  /** The sweep lets the first waiters go, one for each connection it closes, and no others. */
  lemma {:induction false} SweepReleasesFirst(c: Config, s: State, now: Instant)
    requires At(c, s)
    ensures var t := Step(c, s, OrphanTick(now));
            && |t.conns| <= |s.conns|
            && t.blocked == (if |s.conns| - |t.conns| >= |s.blocked| then [] else s.blocked[|s.conns| - |t.conns|..])
            && (forall i :: i in t.parked <==> exists w :: w in t.blocked && w.task == i)
  {
    hide Inv, Books, StillBlocked, StillParked, Expired;
    ReachableKeeps(c, s);
    ExactOrphans(c, s);
    SweepCounts(c, s, now);
    StepInv(c, s, OrphanTick(now));
    ParkedTasks(c, Step(c, s, OrphanTick(now)));
    LaterWaiters(s.blocked, |Expired(c, s, now)|);
  }

  lemma LaterWaiters(blocked: seq<Waiter>, n: nat)
    ensures StillBlocked(blocked, n) == if n >= |blocked| then [] else blocked[n..]
  {
  }

  lemma ParkedTasks(c: Config, s: State)
    requires Inv(c, s)
    ensures forall i :: i in s.parked <==> exists w :: w in s.blocked && w.task == i
  {
    var tasks := WaiterTasks(s.blocked);
    forall i ensures i in s.parked <==> exists w :: w in s.blocked && w.task == i {
      if i in s.parked {
        var k :| 0 <= k < |tasks| && tasks[k] == i;
        assert s.blocked[k] in s.blocked;
      }
      if w :| w in s.blocked && w.task == i {
        WaiterParked(s.blocked, w);
      }
    }
  }

  /** One send call for the head of a worker's queue: it leaves the queue; a failed call with attempts
      left puts the next attempt behind all others, and any other call is reported. */
  lemma SendCallExactly(c: Config, s: State, id: TaskId, result: SendResult)
    requires Enabled(s, WorkerSends(id, result))
    ensures var w := s.tasks[id];
            var e := w.queue[0];
            var again := if result.Sent? || e.attempt >= c.maxSendAttempts then [] else [Entry(e.tx, e.attempt + 1)];
            var told := if result.Sent? then [TxSent(w.peer, w.addr, e)]
                        else if e.attempt >= c.maxSendAttempts then [TxFailed(w.peer, w.addr, e)] else [];
            Step(c, s, WorkerSends(id, result)) ==
              s.(tasks := s.tasks[id := w.(queue := w.queue[1..] + again)], responses := s.responses + told, sends := s.sends + multiset{e})
  {
    var w := s.tasks[id];
    assert w.queue[1..] + [] == w.queue[1..] && s.responses + [] == s.responses;
  }
}
