/** How the closed forms of `DriverState` grow by one element: what the handlers' loops need. */
module DriverLoops {
  import opened Types
  import opened Bags
  import opened DriverState
  import opened DriverInvariant
  import opened OrphanConnections

  // ---------------------------------------------------------------- rescuing entries

  lemma QueueNothing(c: Config, s: State, p: Pubkey, entries: seq<Entry>)
    ensures QueueAll(c, s, p, entries[..0]) == s
  {
    assert s.responses + [] == s.responses;
  }

  lemma QueueOneMoreWithRoom(c: Config, s: State, p: Pubkey, entries: seq<Entry>, i: nat)
    requires i < |entries| && i + |Lookup(s.queues, p, [])| < c.capacity
    ensures QueueAll(c, s, p, entries[..i]) == s.(queues := QueueAll(c, s, p, entries[..i]).queues)
    ensures Lookup(QueueAll(c, s, p, entries[..i]).queues, p, []) == Lookup(s.queues, p, []) + entries[..i]
    ensures QueueAll(c, s, p, entries[..i]).queues[p := Lookup(s.queues, p, []) + entries[..i + 1]] == QueueAll(c, s, p, entries[..i + 1]).queues
    ensures QueueAll(c, s, p, entries[..i + 1]) == s.(queues := QueueAll(c, s, p, entries[..i + 1]).queues)
  {
    var a, b := entries[..i], entries[..i + 1];
    assert a[..i] == a && b[..i + 1] == b && a[i..] == [] && b[i + 1..] == [];
    assert s.responses + [] == s.responses;
  }

  lemma QueueOneMoreWithoutRoom(c: Config, s: State, p: Pubkey, entries: seq<Entry>, i: nat)
    requires i < |entries| && i + |Lookup(s.queues, p, [])| >= c.capacity
    ensures var t, t' := QueueAll(c, s, p, entries[..i]), QueueAll(c, s, p, entries[..i + 1]);
            && |Lookup(t.queues, p, [])| >= c.capacity
            && t' == t.(responses := t'.responses)
            && t'.responses == t.responses + [TxDrop(p, RateLimited, [entries[i]])]
  {
    hide Refusals;
    var room := Saturating(c.capacity - |Lookup(s.queues, p, [])|);
    var a, b := entries[..i], entries[..i + 1];
    assert Min(|a|, room) == room && Min(|b|, room) == room;
    assert a[..room] == b[..room];
    assert b[room..] == a[room..] + [entries[i]];
    RefuseOneMore(p, a[room..], b[room..], entries[i], s.responses);
  }

  lemma RefuseOneMore(p: Pubkey, a: seq<Entry>, b: seq<Entry>, e: Entry, responses: seq<Response>)
    requires b == a + [e]
    ensures responses + Refusals(p, b) == responses + Refusals(p, a) + [TxDrop(p, RateLimited, [e])]
  {
    assert b[..|b| - 1] == a;
  }

  /** Queueing entries one by one comes to the closed form. */
  lemma QueueOneMore(c: Config, s: State, p: Pubkey, entries: seq<Entry>, i: nat)
    requires i < |entries|
    ensures QueueOrDrop(c, QueueAll(c, s, p, entries[..i]), p, entries[i]) == QueueAll(c, s, p, entries[..i + 1])
  {
    hide QueueAll;
    if i + |Lookup(s.queues, p, [])| < c.capacity {
      QueueOneMoreWithRoom(c, s, p, entries, i);
      assert Lookup(s.queues, p, []) + entries[..i] + [entries[i]] == Lookup(s.queues, p, []) + entries[..i + 1];
    } else {
      QueueOneMoreWithoutRoom(c, s, p, entries, i);
    }
  }

  // ---------------------------------------------------------------- stopping workers

  /** The handles the driver holds for `peers`. */
  ghost predicate HandlesOf(handles: seq<Handle>, peers: seq<Pubkey>, workers: map<Pubkey, Handle>) {
    |handles| == |peers| && forall i :: 0 <= i < |peers| ==> peers[i] in workers && handles[i] == workers[peers[i]]
  }

  lemma CancelNobody(tasks: map<TaskId, Worker>, peers: seq<Pubkey>)
    ensures CancelTasks(tasks, Elements(peers[..0])) == tasks
  {
  }

  lemma CancelOne(c: Config, workers: map<Pubkey, Handle>, tasks: map<TaskId, Worker>, next: nat, peers: set<Pubkey>, p: Pubkey)
    requires TaskAgreement(c, workers, tasks, next) && p in workers
    ensures workers[p].task in CancelTasks(tasks, peers)
    ensures var t := CancelTasks(tasks, peers); CancelTasks(tasks, peers + {p}) == t[workers[p].task := t[workers[p].task].(cancelled := true)]
  {
    assert OwnsTask(p, workers, tasks);
    forall id | id in tasks ensures tasks[id].peer == p <==> id == workers[p].task {
      assert TaskOk(c, id, workers, tasks, next);
    }
  }

  lemma CancelOneMore(c: Config, workers: map<Pubkey, Handle>, tasks: map<TaskId, Worker>, next: nat, peers: seq<Pubkey>, i: nat)
    requires TaskAgreement(c, workers, tasks, next) && i < |peers| && peers[i] in workers
    ensures var id := workers[peers[i]].task;
            && id in CancelTasks(tasks, Elements(peers[..i]))
            && var t := CancelTasks(tasks, Elements(peers[..i]));
               CancelTasks(tasks, Elements(peers[..i + 1])) == t[id := t[id].(cancelled := true)]
  {
    assert peers[..i + 1] == peers[..i] + [peers[i]];
    assert Elements(peers[..i + 1]) == Elements(peers[..i]) + {peers[i]};
    CancelOne(c, workers, tasks, next, Elements(peers[..i]), peers[i]);
  }

  lemma TasksAgree(c: Config, s: State)
    requires Inv(c, s)
    ensures TaskAgreement(c, s.workers, s.tasks, s.nextTask)
  {
  }

  // ---------------------------------------------------------------- planning an eviction

  /** What the plan means for one peer. */
  lemma PlannedPeer(c: Config, s: State, p: Pubkey)
    requires Inv(c, s)
    ensures p !in s.workers ==> Targets(s, {p}) == {} && Companions(s, {p}) == {}
    ensures p in s.workers ==>
      && Served(p, s.workers, s.conns)
      && Targets(s, {p}) == {ConnectionId(s.workers[p].addr, s.workers[p].version)}
      && Companions(s, {p}) == s.conns[s.workers[p].addr].peers.Keys
      && (forall q :: q in s.conns[s.workers[p].addr].peers ==> q in s.workers)
  {
    if p in s.workers {
      assert Served(p, s.workers, s.conns);
      assert Staffed(s.workers[p].addr, s.workers, s.conns);
    }
  }

  lemma PlanNobody(s: State, plan: seq<Pubkey>)
    ensures Targets(s, Elements(plan[..0])) == {} && Companions(s, Elements(plan[..0])) == {}
    ensures HandlesOf([], [], s.workers)
    ensures s.pending + {} == s.pending && s.evicted + {} == s.evicted
  {
  }

  lemma PlanOneMore(s: State, done: set<Pubkey>, p: Pubkey)
    ensures Targets(s, done + {p}) == Targets(s, done) + Targets(s, {p})
    ensures Companions(s, done + {p}) == Companions(s, done) + Companions(s, {p})
    ensures s.pending + Targets(s, done + {p}) == s.pending + Targets(s, done) + Targets(s, {p})
    ensures s.evicted + Companions(s, done + {p}) == s.evicted + Companions(s, done) + Companions(s, {p})
  {
  }

  lemma OneMore<T>(order: seq<T>, i: nat)
    requires i < |order|
    ensures Elements(order[..i + 1]) == Elements(order[..i]) + {order[i]}
  {
    assert order[..i + 1] == order[..i] + [order[i]];
  }

  // ---------------------------------------------------------------- address changes

  lemma ChangeNobody(s: State, ans: Answers)
    ensures HandleAddrChange(s, {}, ans) == s
  {
    assert CancelTasks(s.tasks, {}) == s.tasks;
  }

  lemma ChangeOneMore(s: State, done: set<Pubkey>, p: Pubkey, ans: Answers)
    ensures MovedPeers(s, done + {p}, ans) == if Moved(s, p, ans) then MovedPeers(s, done, ans) + {p} else MovedPeers(s, done, ans)
    ensures VanishedIds(s, done + {p}, ans) ==
            if Vanished(s, p, ans) then VanishedIds(s, done, ans) + {ConnectionId(s.workers[p].addr, s.workers[p].version)}
            else VanishedIds(s, done, ans)
  {
  }

  // ---------------------------------------------------------------- the orphan sweep

  lemma SweepOneMore(s: State, gone: set<ConnectionId>, k: ConnectionId)
    requires OrphansExact(s.orphans, s.conns, {})
    requires k in s.orphans && k !in gone && gone <= s.orphans.Keys
    ensures k.addr in Swept(s, gone).conns
    ensures Swept(s, gone).conns[k.addr].version == k.version && Swept(s, gone).conns[k.addr].peers == map[]
    ensures Swept(s, gone + {k}).conns == Swept(s, gone).conns - {k.addr}
    ensures Swept(s, gone + {k}).blocked == StillBlocked(Swept(s, gone).blocked, 1)
    ensures Swept(s, gone + {k}).parked == StillParked(Swept(s, gone).blocked, Swept(s, gone).parked, 1)
  {
    assert OrphanOk(k, s.conns);
    forall j | j in gone ensures j.addr != k.addr {
      assert OrphanOk(j, s.conns);
    }
    assert Addresses(gone + {k}) == Addresses(gone) + {k.addr};
    UnblockOneMore(s.blocked, s.parked, |gone|);
  }

  lemma UnblockOneMore(blocked: seq<Waiter>, parked: set<TaskId>, n: nat)
    ensures StillBlocked(blocked, n + 1) == StillBlocked(StillBlocked(blocked, n), 1)
    ensures StillParked(blocked, parked, n + 1) == StillParked(StillBlocked(blocked, n), StillParked(blocked, parked, n), 1)
  {
    var tasks := WaiterTasks(blocked);
    var rest := StillBlocked(blocked, n);
    if n < |blocked| {
      assert rest[..1] == [blocked[n]];
      assert WaiterTasks(rest[..1]) == [blocked[n].task];
      assert WaiterTasks(blocked[..n + 1]) == WaiterTasks(blocked[..n]) + [blocked[n].task];
      assert Elements(WaiterTasks(blocked[..n + 1])) == Elements(WaiterTasks(blocked[..n])) + {blocked[n].task};
    } else {
      assert rest == [] && rest[..0] == [];
    }
  }

  lemma NextInfo(infos: seq<ConnectionId>, i: nat, gone: set<ConnectionId>)
    requires NoDuplicates(infos) && i < |infos| && Elements(infos) !! gone
    ensures infos[i] in Elements(infos) && infos[i] !in gone + Elements(infos[..i])
    ensures gone + Elements(infos[..i + 1]) == gone + Elements(infos[..i]) + {infos[i]}
    ensures Elements(infos[..i]) <= Elements(infos)
  {
    assert infos[..i + 1] == infos[..i] + [infos[i]];
    assert infos[i] in infos;
  }

  lemma SweepNothing(c: Config, s: State)
    requires Inv(c, s)
    ensures Swept(s, {}) == s && OrphansExact(s.orphans, s.conns, {})
  {
    assert Addresses({}) == {};
    assert s.conns - {} == s.conns && s.orphans - {} == s.orphans;
    assert Elements(WaiterTasks(s.blocked[..0])) == {};
  }

  lemma SweptOrphans(s: State, gone: set<ConnectionId>)
    ensures Swept(s, gone).orphans == s.orphans - gone
  {
  }

  /** When the oldest orphan left is too young, so are all others. */
  lemma NoneExpired(c: Config, s: State, now: Instant, gone: set<ConnectionId>, oldest: Option<Instant>)
    requires gone <= Expired(c, s, now)
    requires oldest.None? ==> s.orphans - gone == map[]
    requires oldest.Some? ==> oldest.value + c.orphanTtl > now && IsOldest(oldest.value, s.orphans - gone)
    ensures gone == Expired(c, s, now)
  {
    forall k | k in Expired(c, s, now) ensures k in gone {
      assert k in s.orphans - gone || k in gone;
    }
  }

  /** The connections popped together were the oldest, hence all expired. */
  lemma PoppedExpired(c: Config, s: State, now: Instant, gone: set<ConnectionId>, oldest: Instant, infos: seq<ConnectionId>)
    requires gone <= Expired(c, s, now) && oldest + c.orphanTtl <= now && infos != []
    requires IsOldest(oldest, s.orphans - gone) && OldestOf(infos, s.orphans - gone)
    ensures gone < gone + Elements(infos) <= Expired(c, s, now)
    ensures Elements(infos) !! gone && Elements(infos) <= s.orphans.Keys && gone <= s.orphans.Keys
    ensures s.orphans - (gone + Elements(infos)) == s.orphans - gone - Elements(infos)
  {
    var m := s.orphans - gone;
    forall k | k in infos ensures k in m && m[k] == oldest {
      var j :| j in m && m[j] == oldest;
      assert oldest <= m[k];
    }
    assert infos[0] in infos;
  }

  // ---------------------------------------------------------------- prediction and identity

  lemma {:induction false} SpawnOneMore(c: Config, s: State, peers: seq<Pubkey>, p: Pubkey, attempt: nat, ans: Answers)
    ensures SpawnAll(c, s, peers + [p], attempt, ans) ==
            SpawnConnecting(c, SpawnAll(c, s, peers, attempt, ans), p, attempt, ans.dest(p), ans.stake(p))
    decreases |peers|
  {
    hide SpawnConnecting;
    if peers == [] {
      assert [] + [p] == [p];
    } else {
      var s1 := SpawnConnecting(c, s, peers[0], attempt, ans.dest(peers[0]), ans.stake(peers[0]));
      assert (peers + [p])[0] == peers[0] && (peers + [p])[1..] == peers[1..] + [p];
      SpawnOneMore(c, s1, peers[1..], p, attempt, ans);
    }
  }

  lemma DistinctOneMore<T>(s: seq<T>, i: nat)
    requires i < |s|
    ensures Distinct(s[..i + 1]) == if s[i] in Elements(s[..i]) then Distinct(s[..i]) else Distinct(s[..i]) + [s[i]]
  {
    assert s[..i + 1][..i] == s[..i];
  }

  lemma DistinctNothing<T>(s: seq<T>)
    ensures Distinct(s[..0]) == []
  {
  }

  /** The attempts of `s` in the given order. */
  ghost function DialsIn(dials: map<TaskId, Dial>, order: seq<TaskId>): seq<Dial>
    requires forall id :: id in order ==> id in dials
  {
    seq(|order|, i requires 0 <= i < |order| => dials[order[i]])
  }

  lemma DialsRest(dials: map<TaskId, Dial>, order: seq<TaskId>, i: nat)
    requires i < |order| && forall id :: id in order ==> id in dials
    ensures forall id :: id in order[i..] ==> id in dials
    ensures forall id :: id in order[i + 1..] ==> id in dials
    ensures DialsIn(dials, order[i..]) != [] && DialsIn(dials, order[i..])[0] == dials[order[i]]
    ensures DialsIn(dials, order[i..])[1..] == DialsIn(dials, order[i + 1..])
  {
  }

  lemma DialsEnds(dials: map<TaskId, Dial>, order: seq<TaskId>)
    requires forall id :: id in order ==> id in dials
    ensures order[0..] == order
    ensures DialsIn(dials, order[|order|..]) == []
  {
  }
}
