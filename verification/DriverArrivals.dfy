/** What becomes of a transaction that arrives and of what a finished worker leaves, and how the
    connection of a finished worker is given up. */
module DriverArrivals {
  import opened Types
  import opened Bags
  import opened DriverState
  import opened DriverInvariant
  import opened DriverSteps
  import opened DriverClosing
  import opened DriverAsking
  import opened DriverLedger
  import opened DriverRuns
  import opened DriverTheorems

  // ---------------------------------------------------------------- an arriving transaction

  ghost function Seen(s: State, tx: Txn, now: Instant): State {
    s.(lastActivity := s.lastActivity[tx.peer := now], accepted := s.accepted + multiset{tx})
  }

  /** The transaction has joined the back of its peer's queue. */
  ghost function Waiting(s: State, tx: Txn, now: Instant): State {
    Seen(s, tx, now).(queues := s.queues[tx.peer := Lookup(s.queues, tx.peer, []) + [Entry(tx, 1)]])
  }

  ghost predicate Oversized(c: Config, tx: Txn) {
    !c.allowAnySize && |tx.wire| > if |tx.wire| > 0 && tx.wire[0] == 129 then 4096 else 1232
  }

  ghost function AskOne(ans: Answers): Orders {
    Orders(p => ans.dest(p), p => 1, p => ans.stake(p))
  }

  /** What one arrival does, exactly: the transaction is refused for its size or for want of room, or
      it joins the back of the worker's channel, or the back of its peer's queue; in the last case
      the peer is asked for unless it has an attempt. */
  lemma {:induction false} ArrivalExactly(c: Config, s: State, tx: Txn, now: Instant, ans: Answers)
    requires At(c, s)
    ensures var p, t := tx.peer, Step(c, s, TxArrived(tx, now, ans));
            if Oversized(c, tx) then t == Report(Seen(s, tx, now), TxDrop(p, InvalidPacketSize, [Entry(tx, 1)]))
            else if p in s.workers then
              && s.workers[p].task in s.tasks
              && var id := s.workers[p].task;
                 t == if |s.tasks[id].channel| < c.capacity
                      then Seen(s, tx, now).(tasks := s.tasks[id := s.tasks[id].(channel := s.tasks[id].channel + [tx])])
                      else Report(Seen(s, tx, now), TxDrop(p, RateLimited, [Entry(tx, 1)]))
            else if |Lookup(s.queues, p, [])| >= c.capacity then t == Report(Seen(s, tx, now), TxDrop(p, RateLimited, [Entry(tx, 1)]))
            else Asked(c, Waiting(s, tx, now), t, Wanting(s, {p}), AskOne(ans))
  {
    hide Inv, Books, AcceptTx, Asked, Wanting, Report;
    ReachableKeeps(c, s);
    if Oversized(c, tx) {
      ArrivalOversized(c, s, tx, now, ans.dest(tx.peer), ans.stake(tx.peer));
    } else if tx.peer in s.workers {
      TaskOfWorker(c, s, tx.peer);
      ArrivalAtWorker(c, s, tx, now, ans.dest(tx.peer), ans.stake(tx.peer));
    } else if |Lookup(s.queues, tx.peer, [])| >= c.capacity {
      ArrivalAtFullQueue(c, s, tx, now, ans.dest(tx.peer), ans.stake(tx.peer));
    } else {
      ArrivalQueued(c, s, tx, now, ans);
    }
  }

  lemma TaskOfWorker(c: Config, s: State, p: Pubkey)
    requires Inv(c, s) && p in s.workers
    ensures s.workers[p].task in s.tasks
  {
    assert OwnsTask(p, s.workers, s.tasks);
  }

  lemma ArrivalOversized(c: Config, s: State, tx: Txn, now: Instant, dest: Option<SocketAddr>, stake: nat)
    requires Oversized(c, tx)
    ensures AcceptTx(c, s, tx, now, dest, stake) == Report(Seen(s, tx, now), TxDrop(tx.peer, InvalidPacketSize, [Entry(tx, 1)]))
  {
    hide Report, SpawnConnecting, QueueOrDrop, SetTask;
  }

  lemma ArrivalAtWorker(c: Config, s: State, tx: Txn, now: Instant, dest: Option<SocketAddr>, stake: nat)
    requires !Oversized(c, tx) && tx.peer in s.workers && s.workers[tx.peer].task in s.tasks
    ensures var id := s.workers[tx.peer].task;
            AcceptTx(c, s, tx, now, dest, stake) ==
              if |s.tasks[id].channel| < c.capacity
              then Seen(s, tx, now).(tasks := s.tasks[id := s.tasks[id].(channel := s.tasks[id].channel + [tx])])
              else Report(Seen(s, tx, now), TxDrop(tx.peer, RateLimited, [Entry(tx, 1)]))
  {
    hide Report, SpawnConnecting, QueueOrDrop;
  }

  lemma ArrivalAtFullQueue(c: Config, s: State, tx: Txn, now: Instant, dest: Option<SocketAddr>, stake: nat)
    requires !Oversized(c, tx) && tx.peer !in s.workers && |Lookup(s.queues, tx.peer, [])| >= c.capacity
    ensures AcceptTx(c, s, tx, now, dest, stake) == Report(Seen(s, tx, now), TxDrop(tx.peer, RateLimited, [Entry(tx, 1)]))
  {
    hide SpawnConnecting, SetTask, QueueOrDrop;
    assert AcceptTx(c, s, tx, now, dest, stake) == QueueOrDrop(c, Seen(s, tx, now), tx.peer, Entry(tx, 1));
    RefusedByQueue(c, Seen(s, tx, now), tx.peer, Entry(tx, 1));
  }

  lemma RefusedByQueue(c: Config, s: State, p: Pubkey, e: Entry)
    requires |Lookup(s.queues, p, [])| >= c.capacity
    ensures QueueOrDrop(c, s, p, e) == Report(s, TxDrop(p, RateLimited, [e]))
  {
  }

  lemma TakenByQueue(c: Config, s: State, p: Pubkey, e: Entry)
    requires |Lookup(s.queues, p, [])| < c.capacity
    ensures QueueOrDrop(c, s, p, e) == s.(queues := s.queues[p := Lookup(s.queues, p, []) + [e]])
  {
  }

  lemma {:induction false} ArrivalQueued(c: Config, s: State, tx: Txn, now: Instant, ans: Answers)
    requires Inv(c, s) && !Oversized(c, tx) && tx.peer !in s.workers && |Lookup(s.queues, tx.peer, [])| < c.capacity
    ensures Asked(c, Waiting(s, tx, now), AcceptTx(c, s, tx, now, ans.dest(tx.peer), ans.stake(tx.peer)), Wanting(s, {tx.peer}), AskOne(ans))
  {
    hide InvExcept, Asked, SpawnConnecting, SetTask, Report, QueueOrDrop;
    var p, seen := tx.peer, Seen(s, tx, now);
    NotingKeeps(c, s, seen.lastActivity, seen.accepted);
    TakenByQueue(c, seen, p, Entry(tx, 1));
    QueueOrDropKeeps(c, seen, p, Entry(tx, 1));
    assert AcceptTx(c, s, tx, now, ans.dest(p), ans.stake(p)) == SpawnConnecting(c, Waiting(s, tx, now), p, 1, ans.dest(p), ans.stake(p));
    SpawnAsks(c, Waiting(s, tx, now), p, 1, ans.dest(p), ans.stake(p), AskOne(ans));
  }

  // ---------------------------------------------------------------- what a finished worker leaves

  /** What fits into the peer's queue of all the worker left: the channel it had not read, each as a
      first attempt, and then its own queue. */
  ghost function Rescued(c: Config, w: Worker): seq<Entry> {
    var left := Fresh(w.channel) + w.queue;
    if |left| <= c.capacity then left else left[..c.capacity]
  }

  ghost function Refused(c: Config, w: Worker): seq<Entry> {
    var left := Fresh(w.channel) + w.queue;
    if |left| <= c.capacity then [] else left[c.capacity..]
  }

  /** The entries are reported one by one, in their order. */
  ghost predicate EachReported(responses: seq<Response>, from: nat, p: Pubkey, entries: seq<Entry>) {
    from + |entries| <= |responses| && forall i :: 0 <= i < |entries| ==> responses[from + i] == TxDrop(p, RateLimited, [entries[i]])
  }

  lemma {:induction false} RefusalsAt(responses: seq<Response>, p: Pubkey, entries: seq<Entry>)
    ensures |Refusals(p, entries)| == |entries|
    ensures EachReported(responses + Refusals(p, entries), |responses|, p, entries)
    decreases |entries|
  {
    if entries != [] {
      var n := |entries| - 1;
      RefusalsAt(responses, p, entries[..n]);
      var shorter, longer := responses + Refusals(p, entries[..n]), responses + Refusals(p, entries);
      assert longer == shorter + [TxDrop(p, RateLimited, [entries[n]])];
      forall i | 0 <= i < |entries| ensures longer[|responses| + i] == TxDrop(p, RateLimited, [entries[i]]) {
        if i < n {
          assert shorter[|responses| + i] == TxDrop(p, RateLimited, [entries[..n][i]]);
        }
      }
    }
  }

  lemma {:induction false} QueueAllFields(c: Config, s: State, p: Pubkey, w: Worker)
    requires p !in s.queues
    ensures var u := QueueAll(c, s, p, Leftover(w));
            && u == s.(queues := u.queues, responses := u.responses)
            && u.queues == (if Rescued(c, w) == [] then s.queues else s.queues[p := Rescued(c, w)])
            && u.responses == s.responses + Refusals(p, Refused(c, w))
  {
    hide Fresh;
    var left := Leftover(w);
    var n := Min(|left|, c.capacity);
    assert [] + left[..n] == left[..n] == Rescued(c, w);
    assert left[n..] == Refused(c, w);
  }

  /** What becomes of the entries of a finished worker: in order, as many as the queue of its peer
      holds are kept and the others are reported one by one. The kept ones are dropped together when
      the peer is unreachable or being evicted; otherwise the peer is asked for with a first attempt,
      in the state without the worker. */
  lemma {:induction false} FinishedWorkerExactly(c: Config, s: State, id: TaskId, mismatch: bool, now: Instant, ans: Answers)
    requires At(c, s) && id in s.tasks
    ensures var p, w, t := s.tasks[id].peer, s.tasks[id], Step(c, s, WorkerDone(id, mismatch, now, ans));
            var kept := Rescued(c, w);
            && CanRetire(c, s, id) && p !in s.queues && EachReported(t.responses, |s.responses|, p, Refused(c, w)) && s.responses <= t.responses
            && if kept == [] then p !in t.queues && p !in t.workers && p !in t.dialPeers && |t.responses| == |s.responses| + |Refused(c, w)|
               else if mismatch || p in s.evicted then
                 && p !in t.queues && p !in t.workers && p !in t.dialPeers && |t.responses| == |s.responses| + |Refused(c, w)| + 1
                 && t.responses[|t.responses| - 1] == TxDrop(p, if mismatch then RemotePeerUnreachable else RemotePeerBeingEvicted, kept)
               else
                 var m := Without(c, s, id, now);
                 && m.queues == s.queues[p := kept] && p !in m.workers && p !in m.dialPeers
                 && Asked(c, m, t, {p}, AskOne(ans))
  {
    hide Inv, Books, Asked, Rescued, Refused, RetireWorker, QueueAll, Without, HandleWorkerResult;
    ReachableKeeps(c, s);
    TaskIsServed(c, s, id);
    var p, w := s.tasks[id].peer, s.tasks[id];
    NoQueueWithWorker(c, s, p);
    RefusalsAt(s.responses, p, Refused(c, w));
    if Rescued(c, w) == [] {
      NothingRescued(c, s, id, mismatch, now, ans);
    } else if mismatch || p in s.evicted {
      DroppedTogether(c, s, id, mismatch, now, ans);
    } else {
      RescueAsks(c, s, id, now, ans);
      RescueReports(c, s, id, now, HandleWorkerResult(c, s, id, false, now, ans), AskOne(ans));
    }
  }

  lemma {:induction false} NothingRescued(c: Config, s: State, id: TaskId, mismatch: bool, now: Instant, ans: Answers)
    requires CanRetire(c, s, id) && s.tasks[id].peer !in s.queues && s.tasks[id].peer !in s.dialPeers && Rescued(c, s.tasks[id]) == []
    ensures var p, t := s.tasks[id].peer, HandleWorkerResult(c, s, id, mismatch, now, ans);
            p !in t.queues && p !in t.workers && p !in t.dialPeers && t.responses == s.responses + Refusals(p, Refused(c, s.tasks[id]))
  {
    hide RetireWorker, QueueAll, Rescued, Refused, SpawnConnecting;
    RetiredPeer(c, s, id, now);
    QueueAllFields(c, RetireWorker(s, id, now), s.tasks[id].peer, s.tasks[id]);
  }

  lemma {:induction false} DroppedTogether(c: Config, s: State, id: TaskId, mismatch: bool, now: Instant, ans: Answers)
    requires CanRetire(c, s, id) && s.tasks[id].peer !in s.queues && s.tasks[id].peer !in s.dialPeers && Rescued(c, s.tasks[id]) != []
    requires mismatch || s.tasks[id].peer in s.evicted
    ensures var p, t := s.tasks[id].peer, HandleWorkerResult(c, s, id, mismatch, now, ans);
            && p !in t.queues && p !in t.workers && p !in t.dialPeers
            && t.responses == s.responses + Refusals(p, Refused(c, s.tasks[id]))
                 + [TxDrop(p, if mismatch then RemotePeerUnreachable else RemotePeerBeingEvicted, Rescued(c, s.tasks[id]))]
  {
    hide RetireWorker, QueueAll, Rescued, Refused, SpawnConnecting, DropQueued;
    var p := s.tasks[id].peer;
    RetiredPeer(c, s, id, now);
    QueueAllFields(c, RetireWorker(s, id, now), p, s.tasks[id]);
    var rescued := QueueAll(c, RetireWorker(s, id, now), p, Leftover(s.tasks[id]));
    DropFields(rescued, p, if mismatch then RemotePeerUnreachable else RemotePeerBeingEvicted);
  }

  lemma DropFields(s: State, p: Pubkey, reason: DropReason)
    requires p in s.queues
    ensures var t := DropQueued(s, p, reason);
            p !in t.queues && t.workers == s.workers && t.dialPeers == s.dialPeers && t.responses == s.responses + [TxDrop(p, reason, s.queues[p])]
  {
  }

  lemma {:induction false} RescueReports(c: Config, s: State, id: TaskId, now: Instant, t: State, r: Orders)
    requires CanRetire(c, s, id) && s.tasks[id].peer !in s.queues && Asked(c, Without(c, s, id, now), t, {s.tasks[id].peer}, r)
    ensures s.responses + Refusals(s.tasks[id].peer, Refused(c, s.tasks[id])) <= t.responses
  {
    hide RetireWorker, QueueAll, Rescued, Refused, DialsGrow, Outcome, Still;
    RetiredPeer(c, s, id, now);
    QueueAllFields(c, RetireWorker(s, id, now), s.tasks[id].peer, s.tasks[id]);
  }

  lemma NoQueueWithWorker(c: Config, s: State, p: Pubkey)
    requires Inv(c, s) && p in s.workers
    ensures p !in s.queues && p !in s.dialPeers
  {
    forall q | q in s.queues ensures q !in s.workers {
      assert QueueOk(c, q, s.queues, s.workers);
    }
  }

  lemma RetiredPeer(c: Config, s: State, id: TaskId, now: Instant)
    requires CanRetire(c, s, id)
    ensures var p, u := s.tasks[id].peer, RetireWorker(s, id, now);
            p !in u.workers && u.queues == s.queues && u.dialPeers == s.dialPeers && u.responses == s.responses
  {
  }

  /** The state without the finished worker, its entries back in the queue of its peer. */
  ghost function Without(c: Config, s: State, id: TaskId, now: Instant): State
    requires CanRetire(c, s, id)
  {
    var rescued := QueueAll(c, RetireWorker(s, id, now), s.tasks[id].peer, Leftover(s.tasks[id]));
    rescued.(lastActivity := rescued.lastActivity[s.tasks[id].peer := now])
  }

  lemma {:induction false} RescueAsks(c: Config, s: State, id: TaskId, now: Instant, ans: Answers)
    requires Inv(c, s) && CanRetire(c, s, id) && s.tasks[id].peer !in s.evicted && Rescued(c, s.tasks[id]) != []
    ensures var p, m := s.tasks[id].peer, Without(c, s, id, now);
            && p !in m.workers && p !in m.dialPeers && m.queues == s.queues[p := Rescued(c, s.tasks[id])]
            && Asked(c, m, HandleWorkerResult(c, s, id, false, now, ans), {p}, AskOne(ans))
  {
    hide InvExcept, Asked, RetireWorker, QueueAll, SpawnConnecting, Rescued, Refused;
    var p, w := s.tasks[id].peer, s.tasks[id];
    var retired := RetireWorker(s, id, now);
    var rescued := QueueAll(c, retired, p, Leftover(w));
    NoQueueWithWorker(c, s, p);
    RetiredPeer(c, s, id, now);
    QueueAllFields(c, retired, p, w);
    RetireKeeps(c, s, id, now);
    LeftoverIsForPeer(c, s, id);
    QueueAllKeeps(c, retired, p, Leftover(w));
    var m := Without(c, s, id, now);
    NotingKeeps(c, rescued, m.lastActivity, m.accepted);
    SpawnAsks(c, m, p, 1, ans.dest(p), ans.stake(p), AskOne(ans));
    assert Wanting(m, {p}) == {p};
  }

  // ---------------------------------------------------------------- the connection it leaves

  /** The worker is the last one of its connection. */
  ghost predicate IsLast(s: State, id: TaskId) {
    id in s.tasks && forall q :: q in s.workers && s.workers[q].addr == s.tasks[id].addr ==> q == s.tasks[id].peer
  }

  /** What a finished worker leaves of its connection: it is closed if the worker was the last and the
      connection was to be evicted, which lets the first waiter go; it is an orphan from now on if
      the worker was the last otherwise; and every other connection stays. */
  lemma {:induction false} FinishedWorkerConnection(c: Config, s: State, id: TaskId, now: Instant)
    requires At(c, s) && id in s.tasks
    ensures CanRetire(c, s, id)
    ensures var m, p, a := Without(c, s, id, now), s.tasks[id].peer, s.tasks[id].addr;
            a in s.conns &&
            var k := ConnectionId(a, s.conns[a].version);
            && m.workers == s.workers - {p} && m.tasks == s.tasks - {id} && m.evicted == s.evicted - {p}
            && m.peerStakes == s.peerStakes - {p} && m.dials == s.dials && m.dialPeers == s.dialPeers && m.nextTask == s.nextTask
            && if IsLast(s, id) && k in s.pending then
                 && m.conns == s.conns - {a} && m.pending == s.pending - {k} && m.orphans == s.orphans
                 && m.blocked == (if s.blocked == [] then [] else s.blocked[1..])
                 && m.parked == (if s.blocked == [] then s.parked else s.parked - {s.blocked[0].task})
               else
                 && m.conns == s.conns[a := Connection(s.conns[a].version, s.conns[a].peers - {p})] && m.pending == s.pending
                 && m.orphans == (if IsLast(s, id) then s.orphans[k := now] else s.orphans)
                 && m.blocked == s.blocked && m.parked == s.parked
  {
    hide Inv, Books, RetireWorker, QueueAll, Rescued, Refused, IsLast;
    ReachableKeeps(c, s);
    TaskIsServed(c, s, id);
    LastIsAlone(c, s, id);
    RetiredFields(c, s, id, now);
    NoQueueWithWorker(c, s, s.tasks[id].peer);
    RetiredPeer(c, s, id, now);
    QueueAllFields(c, RetireWorker(s, id, now), s.tasks[id].peer, s.tasks[id]);
  }

  lemma {:induction false} LastIsAlone(c: Config, s: State, id: TaskId)
    requires Inv(c, s) && CanRetire(c, s, id)
    ensures var p, a := s.tasks[id].peer, s.tasks[id].addr;
            && s.workers[p].addr == a && a in s.conns && s.conns[a].version == s.workers[p].version
            && (IsLast(s, id) <==> s.conns[a].peers - {p} == map[])
            && ConnectionId(a, s.workers[p].version) !in s.orphans
  {
    var p := s.tasks[id].peer;
    assert OwnsTask(p, s.workers, s.tasks);
    var a := s.tasks[id].addr;
    assert Staffed(a, s.workers, s.conns);
    assert ConnectionId(a, s.workers[p].version) in s.orphans ==> OrphanOk(ConnectionId(a, s.workers[p].version), s.conns);
    forall q | q in s.workers && s.workers[q].addr == a ensures q in s.conns[a].peers {
      assert Served(q, s.workers, s.conns);
    }
    assert (s.conns[a].peers - {p}).Keys == s.conns[a].peers.Keys - {p};
    var rest := s.conns[a].peers - {p};
    if rest == map[] {
      assert rest.Keys == {};
      assert forall q :: q in s.conns[a].peers ==> q in rest.Keys || q == p;
    } else {
      var q :| q in rest;
      assert q in s.workers && s.workers[q].addr == a;
    }
  }

  lemma RetiredFields(c: Config, s: State, id: TaskId, now: Instant)
    requires CanRetire(c, s, id)
    ensures var p := s.tasks[id].peer;
            var a, v, u := s.workers[p].addr, s.workers[p].version, RetireWorker(s, id, now);
            var k, rest := ConnectionId(a, v), s.conns[a].peers - {p};
            && u.workers == s.workers - {p} && u.tasks == s.tasks - {id} && u.evicted == s.evicted - {p}
            && u.peerStakes == s.peerStakes - {p} && u.dials == s.dials && u.dialPeers == s.dialPeers && u.nextTask == s.nextTask
            && if rest == map[] && k in s.pending then
                 && u.conns == s.conns - {a} && u.pending == s.pending - {k} && u.orphans == s.orphans
                 && u.blocked == (if s.blocked == [] then [] else s.blocked[1..])
                 && u.parked == (if s.blocked == [] then s.parked else s.parked - {s.blocked[0].task})
               else
                 && u.conns == s.conns[a := Connection(v, rest)] && u.pending == s.pending
                 && (k !in s.orphans ==> u.orphans == if rest == map[] then s.orphans[k := now] else s.orphans)
                 && u.blocked == s.blocked && u.parked == s.parked
  {
    hide TotalStake, StillBlocked, StillParked;
    FirstWaiter(s.blocked, s.parked);
  }

  lemma FirstWaiter(blocked: seq<Waiter>, parked: set<TaskId>)
    ensures StillBlocked(blocked, 1) == if blocked == [] then [] else blocked[1..]
    ensures StillParked(blocked, parked, 1) == if blocked == [] then parked else parked - {blocked[0].task}
  {
    if blocked == [] {
      assert Elements(WaiterTasks(blocked[..0])) == {};
    } else {
      assert WaiterTasks(blocked[..1]) == [blocked[0].task];
    }
  }
}
