/** Where what the driver records comes from: the time of an orphan, the stake of a worker, the number
    of a connection attempt. Each event first changes some records itself and then asks for
    connections; `Origins` says what the first part leaves. */
module DriverOrigins {
  import opened Types
  import opened Bags
  import opened DriverState
  import opened DriverInvariant
  import opened DriverSteps
  import opened DriverClosing
  import opened DriverAsking
  import opened DriverLedger
  import opened DriverRuns
  import opened DriverTheorems
  import opened DriverEffects
  import opened DriverArrivals

  ghost predicate Finishes(ev: Event, i: TaskId) {
    ev.ConnectingDone? && ev.id == i
  }

  /** The event is the end of the last worker of this connection. */
  ghost predicate LastLeaves(s: State, ev: Event, k: ConnectionId) {
    && ev.WorkerDone? && IsLast(s, ev.id)
    && s.tasks[ev.id].addr in s.conns && k == ConnectionId(s.tasks[ev.id].addr, s.conns[s.tasks[ev.id].addr].version)
  }

  /** What the stake service answers during the event. */
  ghost function StakeAnswer(ev: Event, p: Pubkey): nat {
    match ev
    case TxArrived(_, _, ans) => ans.stake(p)
    case ConnectingDone(_, _, ans) => ans.stake(p)
    case WorkerDone(_, _, _, ans) => ans.stake(p)
    case LeadersPredicted(_, ans) => ans.stake(p)
    case IdentityUpdated(_, _, ans) => ans.stake(p)
    case _ => 0
  }

  ghost predicate OrphansFrom(s: State, ev: Event, m: State) {
    forall k :: k in m.orphans ==>
      || (k in s.orphans && m.orphans[k] == s.orphans[k] && !LastLeaves(s, ev, k))
      || (LastLeaves(s, ev, k) && m.orphans[k] == ev.now)
  }

  ghost predicate WorkersFrom(s: State, m: State) {
    && s.nextTask <= m.nextTask
    && forall p :: p in m.workers ==>
         p in s.workers && m.workers[p] == s.workers[p] && (p in s.peerStakes ==> p in m.peerStakes && m.peerStakes[p] == s.peerStakes[p])
  }

  /** Attempts that the event does not finish are as they were, and what waits for them still waits,
      in its order. */
  ghost predicate DialsFrom(s: State, ev: Event, m: State) {
    !ev.IdentityUpdated? ==>
      && (forall i :: i in s.dials && !Finishes(ev, i) ==> i in m.dials && m.dials[i] == s.dials[i])
      && (forall p :: p in s.dialPeers && !Finishes(ev, s.dialPeers[p]) ==> p in m.dialPeers && m.dialPeers[p] == s.dialPeers[p])
      && (forall p :: p in s.dialPeers && !Finishes(ev, s.dialPeers[p]) && p in s.queues ==> p in m.queues && s.queues[p] <= m.queues[p])
  }

  ghost predicate AskedOf(ev: Event, m: State, peers: set<Pubkey>, r: Orders) {
    forall p :: p in peers ==> p !in m.workers && p !in m.dialPeers && r.stake(p) == StakeAnswer(ev, p)
  }

  ghost predicate Origins(c: Config, s: State, ev: Event, m: State, peers: set<Pubkey>, r: Orders, t: State) {
    && OrphansFrom(s, ev, m) && WorkersFrom(s, m) && DialsFrom(s, ev, m) && AskedOf(ev, m, peers, r)
    && Asked(c, m, t, peers, r)
  }

  ghost const NO_ORDERS: Orders := Orders(p => None, p => 0, p => 0)

  /** Events that ask for nobody. */
  lemma {:induction false} NobodyAsked(c: Config, s: State, ev: Event, t: State)
    requires OrphansFrom(s, ev, t) && WorkersFrom(s, t) && DialsFrom(s, ev, t)
    ensures Origins(c, s, ev, t, {}, NO_ORDERS, t)
  {
    AskNobody(c, t, NO_ORDERS);
  }

  /** Nothing but logs, channels and evictions has changed. */
  lemma SameRecords(s: State, ev: Event, t: State)
    requires t.orphans == s.orphans && t.workers == s.workers && t.peerStakes == s.peerStakes && t.nextTask == s.nextTask
    requires t.dials == s.dials && t.dialPeers == s.dialPeers && !ev.WorkerDone?
    requires forall p :: p in s.queues ==> p in t.queues && s.queues[p] <= t.queues[p]
    ensures OrphansFrom(s, ev, t) && WorkersFrom(s, t) && DialsFrom(s, ev, t)
  {
  }

  // ---------------------------------------------------------------- event by event

  lemma {:induction false} ArrivalOrigins(c: Config, s: State, tx: Txn, now: Instant, ans: Answers)
    returns (m: State, peers: set<Pubkey>, r: Orders)
    requires At(c, s)
    ensures Origins(c, s, TxArrived(tx, now, ans), m, peers, r, Step(c, s, TxArrived(tx, now, ans)))
  {
    hide Asked, Step, At, OrphansFrom, WorkersFrom, DialsFrom, Waiting, Report;
    var ev, p := TxArrived(tx, now, ans), tx.peer;
    ArrivalExactly(c, s, tx, now, ans);
    if !Oversized(c, tx) && p !in s.workers && |Lookup(s.queues, p, [])| < c.capacity {
      m, peers, r := Waiting(s, tx, now), Wanting(s, {p}), AskOne(ans);
      WaitingRecords(s, tx, now);
      SameRecords(s, ev, m);
    } else {
      m, peers, r := Step(c, s, ev), {}, NO_ORDERS;
      RefusedElsewhere(c, s, tx, now, m);
      SameRecords(s, ev, m);
      NobodyAsked(c, s, ev, m);
    }
  }

  ghost predicate SameButTasks(s: State, t: State) {
    && t.orphans == s.orphans && t.workers == s.workers && t.peerStakes == s.peerStakes && t.nextTask == s.nextTask
    && t.dials == s.dials && t.dialPeers == s.dialPeers
  }

  lemma WaitingRecords(s: State, tx: Txn, now: Instant)
    ensures SameButTasks(s, Waiting(s, tx, now))
    ensures forall p :: p in s.queues ==> p in Waiting(s, tx, now).queues && s.queues[p] <= Waiting(s, tx, now).queues[p]
  {
  }

  lemma {:induction false} RefusedElsewhere(c: Config, s: State, tx: Txn, now: Instant, t: State)
    requires || (exists r :: t == Report(Seen(s, tx, now), r))
             || (exists tasks :: t == Seen(s, tx, now).(tasks := tasks))
    ensures SameButTasks(s, t) && t.queues == s.queues
  {
    if r :| t == Report(Seen(s, tx, now), r) {
      ReportRecords(s, tx, now, r);
    }
  }

  lemma ReportRecords(s: State, tx: Txn, now: Instant, r: Response)
    ensures var t := Report(Seen(s, tx, now), r); SameButTasks(s, t) && t.queues == s.queues
  {
  }

  lemma {:induction false} ConnectingOrigins(c: Config, s: State, id: TaskId, outcome: ConnectOutcome, ans: Answers)
    returns (m: State, peers: set<Pubkey>, r: Orders)
    requires Inv(c, s) && Enabled(s, ConnectingDone(id, outcome, ans))
    ensures Origins(c, s, ConnectingDone(id, outcome, ans), m, peers, r, Step(c, s, ConnectingDone(id, outcome, ans)))
  {
    hide InvExcept, Asked, RetryAll, UnreachableAll, InstallAll, OrphansFrom, WorkersFrom, DialsFrom, EndDial, Connect;
    var ev := ConnectingDone(id, outcome, ans);
    var dial, ended := s.dials[id], EndDial(s, id);
    EndedFields(c, s, id);
    DialsOwn(c, s, id);
    EndedOrigins(s, ev, ended);
    peers := Elements(dial.peers);
    m := ended;
    match outcome
    case Connected =>
      m, r := Connect(ended, dial.addr), ServeOrders(dial.addr, ans);
      ConnectOrigins(s, ev, ended, dial.addr);
      ConnectedAsks(c, s, id, ans);
    case ConnectionFailed =>
      if dial.attempt < c.maxConnectionAttempts {
        r := RetryOrders(dial, ans);
        FailureAsks(c, s, id, ans);
      } else {
        r := Orders(q => None, q => 0, q => ans.stake(q));
        UnreachableAllAsks(c, ended, dial.peers, r);
      }
    case _ =>
      r := Orders(q => None, q => 0, q => ans.stake(q));
      UnreachableAllAsks(c, ended, dial.peers, r);
  }

  lemma DialsOwn(c: Config, s: State, id: TaskId)
    requires Inv(c, s) && id in s.dials
    ensures forall p :: p in s.dialPeers && s.dialPeers[p] != id ==> p !in s.dials[id].peers
  {
    assert DialOk(id, s.dials, s.dialPeers, s.dialAddrs, s.nextTask);
  }

  lemma EndedOrigins(s: State, ev: Event, u: State)
    requires ev.ConnectingDone? && ev.id in s.dials
    requires u == s.(dials := s.dials - {ev.id}, dialPeers := u.dialPeers, dialAddrs := u.dialAddrs)
    requires forall p :: p !in s.dials[ev.id].peers ==> (p in u.dialPeers <==> p in s.dialPeers) && (p in s.dialPeers ==> u.dialPeers[p] == s.dialPeers[p])
    requires forall p :: p in s.dialPeers && s.dialPeers[p] != ev.id ==> p !in s.dials[ev.id].peers
    ensures OrphansFrom(s, ev, u) && WorkersFrom(s, u) && DialsFrom(s, ev, u)
  {
  }

  lemma ConnectOrigins(s: State, ev: Event, u: State, a: SocketAddr)
    requires OrphansFrom(s, ev, u) && WorkersFrom(s, u) && DialsFrom(s, ev, u)
    ensures var m := Connect(u, a);
            OrphansFrom(s, ev, m) && WorkersFrom(s, m) && DialsFrom(s, ev, m) && m.workers == u.workers && m.dialPeers == u.dialPeers
  {
  }

  lemma {:induction false} WorkerOrigins(c: Config, s: State, id: TaskId, mismatch: bool, now: Instant, ans: Answers)
    returns (m: State, peers: set<Pubkey>, r: Orders)
    requires At(c, s) && id in s.tasks
    ensures Origins(c, s, WorkerDone(id, mismatch, now, ans), m, peers, r, Step(c, s, WorkerDone(id, mismatch, now, ans)))
  {
    hide Asked, Inv, Books, OrphansFrom, WorkersFrom, DialsFrom, Without, HandleWorkerResult;
    var ev, p := WorkerDone(id, mismatch, now, ans), s.tasks[id].peer;
    ReachableKeeps(c, s);
    FinishedWorkerConnection(c, s, id, now);
    FinishedWorkerExactly(c, s, id, mismatch, now, ans);
    RetiredOrigins(c, s, id, mismatch, now, ans);
    if Rescued(c, s.tasks[id]) != [] && !mismatch && p !in s.evicted {
      m, peers, r := Without(c, s, id, now), {p}, AskOne(ans);
    } else {
      DroppedFields(c, s, id, mismatch, now, ans);
      m, peers, r := Step(c, s, ev), {}, NO_ORDERS;
      SameAsRetired(s, ev, Without(c, s, id, now), m, p);
      NobodyAsked(c, s, ev, m);
    }
  }

  /** Without a rescue the records are those of the state without the worker. */
  lemma {:induction false} DroppedFields(c: Config, s: State, id: TaskId, mismatch: bool, now: Instant, ans: Answers)
    requires Inv(c, s) && CanRetire(c, s, id)
    requires Rescued(c, s.tasks[id]) == [] || mismatch || s.tasks[id].peer in s.evicted
    ensures var t, m := HandleWorkerResult(c, s, id, mismatch, now, ans), Without(c, s, id, now);
            && t.orphans == m.orphans && t.workers == m.workers && t.peerStakes == m.peerStakes && t.nextTask == m.nextTask
            && t.dials == m.dials && t.dialPeers == m.dialPeers && forall p :: p != s.tasks[id].peer ==> SameQueue(m, t, p)
  {
    hide InvExcept, RetireWorker, QueueAll, Rescued, SpawnConnecting;
    NoQueueWithWorker(c, s, s.tasks[id].peer);
    RetiredPeer(c, s, id, now);
    QueueAllFields(c, RetireWorker(s, id, now), s.tasks[id].peer, s.tasks[id]);
  }

  lemma SameAsRetired(s: State, ev: Event, m: State, t: State, p: Pubkey)
    requires OrphansFrom(s, ev, m) && WorkersFrom(s, m) && DialsFrom(s, ev, m)
    requires t.orphans == m.orphans && t.workers == m.workers && t.peerStakes == m.peerStakes && t.nextTask == m.nextTask
    requires t.dials == m.dials && t.dialPeers == m.dialPeers && p !in s.dialPeers && forall q :: q != p ==> SameQueue(m, t, q)
    ensures OrphansFrom(s, ev, t) && WorkersFrom(s, t) && DialsFrom(s, ev, t)
  {
    forall q | q in s.dialPeers ensures SameQueue(m, t, q) {
    }
  }

  lemma {:induction false} RetiredOrigins(c: Config, s: State, id: TaskId, mismatch: bool, now: Instant, ans: Answers)
    requires At(c, s) && id in s.tasks && CanRetire(c, s, id)
    ensures var m, ev := Without(c, s, id, now), WorkerDone(id, mismatch, now, ans);
            OrphansFrom(s, ev, m) && WorkersFrom(s, m) && DialsFrom(s, ev, m) && s.tasks[id].peer !in s.dialPeers
  {
    hide Inv, Books, Without, IsLast, OrphansFrom, WorkersFrom, DialsFrom;
    ReachableKeeps(c, s);
    NoQueueWithWorker(c, s, s.tasks[id].peer);
    RetiredOrphans(c, s, id, mismatch, now, ans);
    RetiredWorkers(c, s, id, mismatch, now, ans);
  }

  lemma {:induction false} RetiredOrphans(c: Config, s: State, id: TaskId, mismatch: bool, now: Instant, ans: Answers)
    requires At(c, s) && id in s.tasks && CanRetire(c, s, id)
    ensures OrphansFrom(s, WorkerDone(id, mismatch, now, ans), Without(c, s, id, now))
  {
    hide Inv, Books, Without, IsLast;
    ReachableKeeps(c, s);
    FinishedWorkerConnection(c, s, id, now);
    LastIsAlone(c, s, id);
  }

  lemma {:induction false} RetiredWorkers(c: Config, s: State, id: TaskId, mismatch: bool, now: Instant, ans: Answers)
    requires At(c, s) && id in s.tasks && CanRetire(c, s, id)
    ensures var m, ev := Without(c, s, id, now), WorkerDone(id, mismatch, now, ans);
            WorkersFrom(s, m) && DialsFrom(s, ev, m)
  {
    hide Inv, Books, Without, IsLast;
    ReachableKeeps(c, s);
    FinishedWorkerConnection(c, s, id, now);
    NoQueueWithWorker(c, s, s.tasks[id].peer);
    OthersWait(c, s, id, now);
    forall q | q in s.dialPeers ensures SameQueue(s, Without(c, s, id, now), q) {
    }
  }

  lemma {:induction false} OthersWait(c: Config, s: State, id: TaskId, now: Instant)
    requires Inv(c, s) && CanRetire(c, s, id)
    ensures forall p :: p != s.tasks[id].peer ==> SameQueue(s, Without(c, s, id, now), p)
  {
    hide InvExcept, RetireWorker, QueueAll, Rescued;
    NoQueueWithWorker(c, s, s.tasks[id].peer);
    RetiredPeer(c, s, id, now);
    QueueAllFields(c, RetireWorker(s, id, now), s.tasks[id].peer, s.tasks[id]);
  }

  lemma {:induction false} IdentityOrigins(c: Config, s: State, identity: Pubkey, order: seq<TaskId>, ans: Answers)
    returns (m: State, peers: set<Pubkey>, r: Orders)
    requires Inv(c, s) && Enabled(s, IdentityUpdated(identity, order, ans))
    ensures Origins(c, s, IdentityUpdated(identity, order, ans), m, peers, r, Step(c, s, IdentityUpdated(identity, order, ans)))
  {
    hide InvExcept, Asked, UpdateIdentity;
    m, peers, r := ResetForIdentity(s, identity), s.dialPeers.Keys, ReplayOrders(s, ans);
    ReplayAsks(c, s, identity, order, ans);
  }

  lemma {:induction false} SweepOrigins(c: Config, s: State, now: Instant)
    ensures var t := TryEvictOrphans(c, s, now);
            OrphansFrom(s, OrphanTick(now), t) && WorkersFrom(s, t) && DialsFrom(s, OrphanTick(now), t)
  {
    hide StillBlocked, StillParked;
  }

  lemma {:induction false} StepOrigins(c: Config, s: State, ev: Event) returns (m: State, peers: set<Pubkey>, r: Orders)
    requires At(c, s) && Enabled(s, ev)
    ensures Origins(c, s, ev, m, peers, r, Step(c, s, ev))
  {
    hide At, Inv, Books, Origins, Asked, OrphansFrom, WorkersFrom, DialsFrom, TryEvictOrphans, SpawnAll, DoEvictionIfRequired, HandleAddrChange, WorkerReceive;
    ReachableAt(c, s);
    match ev
    case TxArrived(tx, now, ans) => m, peers, r := ArrivalOrigins(c, s, tx, now, ans);
    case ConnectingDone(id, outcome, ans) => m, peers, r := ConnectingOrigins(c, s, id, outcome, ans);
    case WorkerDone(id, mismatch, now, ans) => m, peers, r := WorkerOrigins(c, s, id, mismatch, now, ans);
    case IdentityUpdated(identity, order, ans) => m, peers, r := IdentityOrigins(c, s, identity, order, ans);
    case LeadersPredicted(leaders, ans) => m, peers, r := PredictionOrigins(c, s, leaders, ans);
    case OrphanTick(now) =>
      m, peers, r := Step(c, s, ev), {}, NO_ORDERS;
      SweepOrigins(c, s, now);
      NobodyAsked(c, s, ev, m);
    case EvictionTick(plan, fallback) =>
      m, peers, r := Step(c, s, ev), {}, NO_ORDERS;
      EvictionRound(c, s, plan, fallback, ConnectionId(SocketAddr(0), 0), s.identity, 0);
      SameRecords(s, ev, m);
      NobodyAsked(c, s, ev, m);
    case AddressesChanged(changed, ans) =>
      m, peers, r := Step(c, s, ev), {}, NO_ORDERS;
      AddressChangeExactly(c, s, changed, ans, ConnectionId(SocketAddr(0), 0), 0);
      SameRecords(s, ev, m);
      NobodyAsked(c, s, ev, m);
    case WorkerReceives(id) =>
      m, peers, r := Step(c, s, ev), {}, NO_ORDERS;
      ReceiveFields(s, id);
      SameRecords(s, ev, m);
      NobodyAsked(c, s, ev, m);
    case _ =>
      m, peers, r := Step(c, s, ev), {}, NO_ORDERS;
      SameRecords(s, ev, m);
      NobodyAsked(c, s, ev, m);
  }

  lemma ReachableAt(c: Config, s: State)
    requires At(c, s)
    ensures Inv(c, s)
  {
    ReachableKeeps(c, s);
  }

  lemma ReceiveFields(s: State, id: TaskId)
    requires id in s.tasks && s.tasks[id].queue == [] && s.tasks[id].channel != []
    ensures WorkerReceive(s, id) == s.(tasks := WorkerReceive(s, id).tasks)
  {
  }

  lemma {:induction false} PredictionOrigins(c: Config, s: State, leaders: seq<Pubkey>, ans: Answers)
    returns (m: State, peers: set<Pubkey>, r: Orders)
    requires At(c, s)
    ensures Origins(c, s, LeadersPredicted(leaders, ans), m, peers, r, Step(c, s, LeadersPredicted(leaders, ans)))
  {
    hide At, Asked, Step;
    m, peers, r := s, Wanting(s, Elements(leaders)), Orders(p => ans.dest(p), p => 1, p => ans.stake(p));
    PredictionAsks(c, s, leaders, ans);
  }

  // ---------------------------------------------------------------- since when a connection is idle

  /** The time an orphan carries is the time at which its last worker left: an event leaves it as it
      was, or is that end itself. */
  lemma {:induction false} OrphanTime(c: Config, s: State, ev: Event, k: ConnectionId)
    requires At(c, s) && Enabled(s, ev) && k in Step(c, s, ev).orphans
    ensures var t := Step(c, s, ev);
            if LastLeaves(s, ev, k) then t.orphans[k] == IdleAfter(s, ev, k, 0) else k in s.orphans && t.orphans[k] == s.orphans[k]
  {
    hide At, Step, Enabled, DialsGrow, Outcome, Still, IsLast;
    var m, peers, r := StepOrigins(c, s, ev);
    assert k in m.orphans;
  }

  /** The time of the last event of the run in which the last worker of this connection left. */
  ghost function IdleSince(c: Config, s: State, evs: seq<Event>, k: ConnectionId, since: Instant): Instant
    requires Runs(c, s, evs)
    decreases |evs|
  {
    if evs == [] then since
    else IdleSince(c, Step(c, s, evs[0]), evs[1..], k, IdleAfter(s, evs[0], k, since))
  }

  ghost function IdleAfter(s: State, ev: Event, k: ConnectionId, since: Instant): Instant {
    if LastLeaves(s, ev, k) then ev.now else since
  }

  ghost predicate Runs(c: Config, s: State, evs: seq<Event>)
    decreases |evs|
  {
    evs != [] ==> Enabled(s, evs[0]) && Runs(c, Step(c, s, evs[0]), evs[1..])
  }

  lemma {:induction false} RunsOn(c: Config, s: State, evs: seq<Event>, t: State)
    requires Run(c, s, evs, t)
    ensures Runs(c, s, evs)
    decreases |evs|
  {
    hide Step, Enabled;
    if evs != [] {
      RunsOn(c, Step(c, s, evs[0]), evs[1..], t);
    }
  }

  lemma {:induction false} RunExtends(c: Config, s: State, evs: seq<Event>, t: State, ev: Event)
    requires Run(c, s, evs, t) && Enabled(t, ev)
    ensures Run(c, s, evs + [ev], Step(c, t, ev))
    decreases |evs|
  {
    hide Step, Enabled;
    if evs == [] {
      assert ([] + [ev])[1..] == [];
      assert Run(c, Step(c, t, ev), [], Step(c, t, ev));
    } else {
      RunExtends(c, Step(c, s, evs[0]), evs[1..], t, ev);
      assert (evs + [ev])[1..] == evs[1..] + [ev];
    }
  }

  lemma {:induction false} NextReachable(c: Config, s: State, ev: Event)
    requires At(c, s) && Enabled(s, ev)
    ensures At(c, Step(c, s, ev))
  {
    hide Step, Enabled, Run;
    var identity, evs :| Run(c, Initial(identity), evs, s);
    RunExtends(c, Initial(identity), evs, s, ev);
  }

  lemma {:induction false} OrphansSince(c: Config, s: State, evs: seq<Event>, t: State, k: ConnectionId, since: Instant)
    requires At(c, s) && Run(c, s, evs, t) && Runs(c, s, evs) && (k in s.orphans ==> s.orphans[k] == since)
    ensures k in t.orphans ==> t.orphans[k] == IdleSince(c, s, evs, k, since)
    decreases |evs|
  {
    hide At, Step, Enabled, IsLast;
    if evs != [] {
      var u := Step(c, s, evs[0]);
      NextReachable(c, s, evs[0]);
      if k in u.orphans {
        OrphanTime(c, s, evs[0], k);
      }
      OrphansSince(c, u, evs[1..], t, k, IdleAfter(s, evs[0], k, since));
    }
  }

  /** In any run an orphan carries the time at which its last worker left. */
  lemma {:induction false} OrphanCarriesItsTime(c: Config, identity: Pubkey, evs: seq<Event>, t: State, k: ConnectionId)
    requires c.maxSendAttempts >= 1 && Run(c, Initial(identity), evs, t) && k in t.orphans
    ensures Runs(c, Initial(identity), evs) && t.orphans[k] == IdleSince(c, Initial(identity), evs, k, 0)
  {
    hide Step, Enabled, IdleSince;
    RunsOn(c, Initial(identity), evs, t);
    assert Run(c, Initial(identity), [], Initial(identity));
    OrphansSince(c, Initial(identity), evs, t, k, 0);
  }

  // ---------------------------------------------------------------- whose stake is indexed

  /** The indexed stake of a worker is what the stake service answered when the worker was started. */
  lemma {:induction false} StakeIsAnswered(c: Config, s: State, ev: Event, p: Pubkey)
    requires At(c, s) && Enabled(s, ev) && p in Step(c, s, ev).workers
    ensures var t := Step(c, s, ev);
            && p in t.peerStakes
            && if p in s.workers && s.workers[p] == t.workers[p] then p in s.peerStakes && t.peerStakes[p] == s.peerStakes[p]
               else t.peerStakes[p] == StakeAnswer(ev, p)
  {
    hide At, Step, Enabled, StakeAnswer, DialsGrow, OrphansFrom, DialsFrom, PendingAt;
    ReachableAt(c, s);
    var m, peers, r := StepOrigins(c, s, ev);
    var t := Step(c, s, ev);
    OldTasksBelow(c, s, p);
    if p in peers {
      assert Outcome(m, t, p, r);
    } else {
      assert Still(m, t, p);
    }
  }

  lemma OldTasksBelow(c: Config, s: State, p: Pubkey)
    requires Inv(c, s)
    ensures p in s.workers ==> s.workers[p].task < s.nextTask && p in s.peerStakes
  {
    if p in s.workers {
      assert OwnsTask(p, s.workers, s.tasks);
      assert TaskOk(c, s.workers[p].task, s.workers, s.tasks, s.nextTask);
    }
  }
}
