/** Where every accepted transaction is.

    An entry is a transaction with its attempt number. `Total` is the bag of all entries that are
    queued, held by a worker, reported to the callback, or left to the detached task of an
    identity update. Handlers only move entries around; accepting adds one, and a failed send
    call with attempts left replaces an entry by the next attempt. */
module DriverLedger {
  import opened Types
  import opened Bags
  import opened DriverState
  import opened DriverInvariant
  import opened DriverSteps
  import opened DriverClosing
  import opened DriverDrains

  ghost function EntriesOf(r: Response): multiset<Entry> {
    match r
    case TxSent(_, _, e) => multiset{e}
    case TxFailed(_, _, e) => multiset{e}
    case TxDrop(_, _, entries) => multiset(entries)
  }

  ghost function Reported(responses: seq<Response>): multiset<Entry> {
    if responses == [] then multiset{}
    else Reported(responses[..|responses| - 1]) + EntriesOf(responses[|responses| - 1])
  }

  ghost function Owned(s: State): multiset<Entry> {
    Bag(s.queues, Queued) + Bag(s.tasks, Carried)
  }

  ghost function Total(s: State): multiset<Entry> {
    Owned(s) + Reported(s.responses) + Away(s.drains)
  }

  /** A response names the peer its transactions are for; a failure is reported only for the last
      attempt the configuration allows; a drop is empty only for a worker of an old identity. */
  ghost predicate Routed(c: Config, r: Response) {
    match r
    case TxSent(p, _, e) => e.tx.peer == p
    case TxFailed(p, _, e) => e.tx.peer == p && e.attempt >= c.maxSendAttempts
    case TxDrop(p, reason, entries) => (entries != [] || reason.DriverIdentityChanged?) && forall e :: e in entries ==> e.tx.peer == p
  }

  /** From `s` to `s'` entries were only moved (apart from `added`), and what was reported on
      the way is routed. */
  ghost predicate Moves(c: Config, s: State, s': State, added: multiset<Entry>) {
    && Total(s') == Total(s) + added
    && Extends(c, s.responses, s'.responses)
    && s'.accepted == s.accepted
    && s'.sends == s.sends
    && s'.drains == s.drains
  }

  /** `b` continues `a` with routed responses. */
  ghost predicate Extends(c: Config, a: seq<Response>, b: seq<Response>) {
    a <= b && forall i {:trigger Routed(c, b[i])} :: |a| <= i < |b| ==> Routed(c, b[i])
  }

  lemma ExtendsTrans(c: Config, x: seq<Response>, y: seq<Response>, z: seq<Response>)
    requires Extends(c, x, y) && Extends(c, y, z)
    ensures Extends(c, x, z)
  {
    forall i | |x| <= i < |z| ensures Routed(c, z[i]) {
      if i < |y| {
        assert Routed(c, y[i]);
      }
    }
  }

  /** How a move is shown: `gone` left the held entries, and was reported. */
  lemma Conclude(c: Config, s: State, s': State, added: multiset<Entry>, gone: multiset<Entry>)
    requires Owned(s') + gone == Owned(s) + added
    requires Reported(s'.responses) == Reported(s.responses) + gone
    requires Extends(c, s.responses, s'.responses)
    requires s'.drains == s.drains && s'.accepted == s.accepted && s'.sends == s.sends
    ensures Moves(c, s, s', added)
  {
    Balance(Owned(s'), Owned(s), Reported(s'.responses), Reported(s.responses), Away(s.drains), gone, added);
  }

  lemma MovesTrans(c: Config, s: State, t: State, u: State, a: multiset<Entry>)
    requires Moves(c, s, t, a) && Moves(c, t, u, multiset{})
    ensures Moves(c, s, u, a)
  {
    ExtendsTrans(c, s.responses, t.responses, u.responses);
  }

  lemma MovesAfter(c: Config, s: State, t: State, u: State, a: multiset<Entry>)
    requires Moves(c, s, t, multiset{}) && Moves(c, t, u, a)
    ensures Moves(c, s, u, a)
  {
    ExtendsTrans(c, s.responses, t.responses, u.responses);
  }

  lemma ReportedOne(responses: seq<Response>, r: Response)
    ensures Reported(responses + [r]) == Reported(responses) + EntriesOf(r)
  {
    assert (responses + [r])[..|responses|] == responses;
  }

  lemma LastRefusal(responses: seq<Response>, p: Pubkey, entries: seq<Entry>)
    requires entries != []
    ensures var n := |entries| - 1;
            responses + Refusals(p, entries) == responses + Refusals(p, entries[..n]) + [TxDrop(p, RateLimited, [entries[n]])]
  {
  }

  lemma {:induction false} ReportedRefusals(responses: seq<Response>, p: Pubkey, entries: seq<Entry>)
    ensures Reported(responses + Refusals(p, entries)) == Reported(responses) + multiset(entries)
    decreases |entries|
  {
    if entries == [] {
      assert responses + [] == responses;
    } else {
      var n := |entries| - 1;
      LastRefusal(responses, p, entries);
      ReportedRefusals(responses, p, entries[..n]);
      ReportedOne(responses + Refusals(p, entries[..n]), TxDrop(p, RateLimited, [entries[n]]));
      SplitLast(entries);
    }
  }

  lemma SplitLast(entries: seq<Entry>)
    requires entries != []
    ensures var n := |entries| - 1; multiset(entries) == multiset(entries[..n]) + multiset{entries[n]}
  {
    var n := |entries| - 1;
    assert entries == entries[..n] + [entries[n]];
  }

  lemma {:induction false} RoutedRefusals(c: Config, p: Pubkey, entries: seq<Entry>)
    requires forall e :: e in entries ==> e.tx.peer == p
    ensures forall r :: r in Refusals(p, entries) ==> Routed(c, r)
    decreases |entries|
  {
    if entries != [] {
      var n := |entries| - 1;
      assert entries[n] in entries && forall e :: e in entries[..n] ==> e in entries;
      RoutedRefusals(c, p, entries[..n]);
      assert Routed(c, TxDrop(p, RateLimited, [entries[n]]));
    }
  }

  lemma ExtendsAll(c: Config, responses: seq<Response>, more: seq<Response>)
    requires forall r :: r in more ==> Routed(c, r)
    ensures Extends(c, responses, responses + more)
  {
  }

  lemma ExtendsOne(c: Config, responses: seq<Response>, r: Response)
    requires Routed(c, r)
    ensures Extends(c, responses, responses + [r])
  {
  }

  lemma {:induction false} ReportedPrefix(a: seq<Response>, b: seq<Response>)
    requires a <= b
    ensures Reported(a) <= Reported(b)
    decreases |b|
  {
    if |a| < |b| {
      ReportedPrefix(a, b[..|b| - 1]);
    } else {
      assert a == b;
    }
  }

  // ---------------------------------------------------------------- the building blocks move entries

  lemma ReportMoves(c: Config, s: State, s1: State, r: Response)
    requires s1.responses == s.responses && s1.drains == s.drains && s1.accepted == s.accepted && s1.sends == s.sends
    requires Owned(s) == Owned(s1) + EntriesOf(r) && Routed(c, r)
    ensures Moves(c, s, Report(s1, r), multiset{})
  {
    ReportedOne(s.responses, r);
    ExtendsOne(c, s.responses, r);
    Conclude(c, s, Report(s1, r), multiset{}, EntriesOf(r));
  }

  lemma DropQueuedMoves(c: Config, s: State, p: Pubkey, reason: DropReason)
    requires QueuesOk(c, s.queues, s.workers)
    ensures Moves(c, s, DropQueued(s, p, reason), multiset{})
  {
    if p in s.queues {
      assert QueueOk(c, p, s.queues, s.workers);
      BagSplit(s.queues, p, Queued);
      ReportMoves(c, s, s.(queues := s.queues - {p}), TxDrop(p, reason, s.queues[p]));
    }
  }

  lemma QueuePushHolds(queues: map<Pubkey, seq<Entry>>, p: Pubkey, entries: seq<Entry>)
    ensures Bag(queues[p := Lookup(queues, p, []) + entries], Queued) == Bag(queues, Queued) + multiset(entries)
  {
    BagSet(queues, p, Lookup(queues, p, []) + entries, Queued);
  }

  lemma QueueOrDropMoves(c: Config, s: State, p: Pubkey, e: Entry)
    requires e.tx.peer == p
    ensures Moves(c, s, QueueOrDrop(c, s, p, e), multiset{e})
  {
    hide Bag, Reported, Extends;
    if HasRoom(c, s, p) {
      QueuePushHolds(s.queues, p, [e]);
      Conclude(c, s, QueueOrDrop(c, s, p, e), multiset{e}, multiset{});
    } else {
      RefuseMoves(c, s, s, p, e, RateLimited);
    }
  }

  lemma QueueAllMoves(c: Config, s: State, p: Pubkey, entries: seq<Entry>)
    requires forall e :: e in entries ==> e.tx.peer == p
    ensures Moves(c, s, QueueAll(c, s, p, entries), multiset(entries))
  {
    hide Bag, Reported, Extends;
    var n := Min(|entries|, Saturating(c.capacity - |Lookup(s.queues, p, [])|));
    var s' := QueueAll(c, s, p, entries);
    SplitEntries(entries, n);
    ReportedRefusals(s.responses, p, entries[n..]);
    RoutedRefusals(c, p, entries[n..]);
    ExtendsAll(c, s.responses, Refusals(p, entries[n..]));
    QueueSomeHolds(c, s, p, entries, n);
    Conclude(c, s, s', multiset(entries), multiset(entries[n..]));
  }

  lemma QueueSomeHolds(c: Config, s: State, p: Pubkey, entries: seq<Entry>, n: nat)
    requires n == Min(|entries|, Saturating(c.capacity - |Lookup(s.queues, p, [])|))
    ensures Owned(QueueAll(c, s, p, entries)) + multiset(entries[n..]) == Owned(s) + multiset(entries)
  {
    QueuePushHolds(s.queues, p, entries[..n]);
    SplitEntries(entries, n);
  }

  lemma SplitEntries(entries: seq<Entry>, n: nat)
    requires n <= |entries|
    ensures multiset(entries) == multiset(entries[..n]) + multiset(entries[n..])
    ensures forall e :: e in entries[n..] ==> e in entries
  {
    assert entries == entries[..n] + entries[n..];
  }

  /** The queue of a peer moves into the hands of its new worker. */
  lemma InstallHolds(s: State, p: Pubkey, addr: SocketAddr, stake: nat)
    requires p !in s.workers && addr in s.conns && s.nextTask !in s.tasks
    ensures Owned(InstallWorker(s, p, addr, stake)) == Owned(s)
  {
    var q := Lookup(s.queues, p, []);
    var w := Worker(p, addr, [], q, false);
    BagSet(s.tasks, s.nextTask, w, Carried);
    assert Leftover(w) == q;
    LookupSplit(s.queues, p);
    Swap(Bag(s.queues - {p}, Queued), multiset(q), Bag(s.tasks, Carried));
  }

  lemma LookupSplit(queues: map<Pubkey, seq<Entry>>, p: Pubkey)
    ensures Bag(queues, Queued) == multiset(Lookup(queues, p, [])) + Bag(queues - {p}, Queued)
  {
    if p in queues {
      BagSplit(queues, p, Queued);
    } else {
      assert queues - {p} == queues;
    }
  }

  lemma InstallMoves(c: Config, s: State, p: Pubkey, addr: SocketAddr, stake: nat)
    requires TaskAgreement(c, s.workers, s.tasks, s.nextTask) && QueuesOk(c, s.queues, s.workers)
    ensures Moves(c, s, InstallWorker(s, p, addr, stake), multiset{})
  {
    if p in s.workers {
    } else if addr !in s.conns {
      DropQueuedMoves(c, s, p, RemotePeerUnreachable);
    } else {
      assert s.nextTask in s.tasks ==> TaskOk(c, s.nextTask, s.workers, s.tasks, s.nextTask);
      InstallHolds(s, p, addr, stake);
      Conclude(c, s, InstallWorker(s, p, addr, stake), multiset{}, multiset{});
    }
  }

  lemma {:induction false} InstallAllMoves(c: Config, s: State, peers: seq<Pubkey>, addr: SocketAddr, ans: Answers, unstaffed: set<SocketAddr>)
    requires InvExcept(c, s, unstaffed) && addr in s.conns && !PendingAt(s, addr)
    requires NoDuplicates(peers) && forall p :: p in peers ==> p !in s.workers && p !in s.dialPeers
    ensures Moves(c, s, InstallAll(s, peers, addr, ans), multiset{})
    decreases |peers|
  {
    hide Moves;
    Unmoved(c, s, s);
    if peers != [] {
      var p := peers[0];
      var s1 := InstallWorker(s, p, addr, ans.stake(p));
      InstallKeeps(c, s, p, addr, ans.stake(p), unstaffed);
      InstallFrame(s, p, addr, ans.stake(p));
      InstallMoves(c, s, p, addr, ans.stake(p));
      DistinctRest(peers);
      InstallAllMoves(c, s1, peers[1..], addr, ans, unstaffed - {addr});
      MovesTrans(c, s, s1, InstallAll(s1, peers[1..], addr, ans), multiset{});
    }
  }

  /** Steps that touch neither entries nor logs. */
  lemma Unmoved(c: Config, s: State, s': State)
    requires s'.queues == s.queues && s'.tasks == s.tasks && s'.responses == s.responses
    requires s'.drains == s.drains && s'.accepted == s.accepted && s'.sends == s.sends
    ensures Moves(c, s, s', multiset{})
  {
  }

  lemma DialMoves(c: Config, s: State, p: Pubkey, addr: SocketAddr, attempt: nat)
    ensures Moves(c, s, StartDial(c, s, p, addr, attempt), multiset{})
    ensures addr in s.dialAddrs && s.dialAddrs[addr] in s.dials ==> Moves(c, s, JoinDial(s, p, s.dialAddrs[addr]), multiset{})
  {
    hide Moves;
    Unmoved(c, s, StartDial(c, s, p, addr, attempt));
    if addr in s.dialAddrs && s.dialAddrs[addr] in s.dials {
      Unmoved(c, s, JoinDial(s, p, s.dialAddrs[addr]));
    }
  }

  lemma SpawnConnectingMoves(c: Config, s: State, p: Pubkey, attempt: nat, dest: Option<SocketAddr>, stake: nat)
    requires Inv(c, s)
    ensures Moves(c, s, SpawnConnecting(c, s, p, attempt, dest, stake), multiset{})
  {
    hide Moves, InstallWorker, DropQueued, JoinDial, StartDial;
    Unmoved(c, s, s);
    DropQueuedMoves(c, s, p, RemotePeerUnreachable);
    if dest.Some? {
      DialMoves(c, s, p, dest.value, attempt);
      InstallMoves(c, s, p, dest.value, stake);
    }
  }

  lemma {:induction false} UnreachableAllMoves(c: Config, s: State, peers: seq<Pubkey>)
    requires Inv(c, s)
    ensures Moves(c, s, UnreachableAll(s, peers), multiset{})
    decreases |peers|
  {
    hide Moves;
    Unmoved(c, s, s);
    if peers != [] {
      var s1 := DropQueued(s, peers[0], RemotePeerUnreachable);
      DropQueuedKeeps(c, s, peers[0], RemotePeerUnreachable, {});
      DropQueuedMoves(c, s, peers[0], RemotePeerUnreachable);
      UnreachableAllMoves(c, s1, peers[1..]);
      MovesTrans(c, s, s1, UnreachableAll(s1, peers[1..]), multiset{});
    }
  }

  lemma RetryPeerMoves(c: Config, s: State, p: Pubkey, dial: Dial, ans: Answers)
    requires Inv(c, s)
    ensures Moves(c, s, RetryPeer(c, s, p, dial, ans), multiset{})
  {
    hide Moves;
    if ans.dest(p).None? {
      DropQueuedMoves(c, s, p, RemotePeerUnreachable);
    } else {
      SpawnConnectingMoves(c, s, p, RetryAttempt(dial, ans.dest(p).value), ans.again(p), ans.stake(p));
    }
  }

  lemma {:induction false} RetryAllMoves(c: Config, s: State, peers: seq<Pubkey>, dial: Dial, ans: Answers)
    requires Inv(c, s) && 1 <= dial.attempt < c.maxConnectionAttempts
    ensures Moves(c, s, RetryAll(c, s, peers, dial, ans), multiset{})
    decreases |peers|
  {
    hide Moves;
    Unmoved(c, s, s);
    if peers != [] {
      var s1 := RetryPeer(c, s, peers[0], dial, ans);
      RetryPeerKeeps(c, s, peers[0], dial, ans);
      RetryPeerMoves(c, s, peers[0], dial, ans);
      RetryAllMoves(c, s1, peers[1..], dial, ans);
      MovesTrans(c, s, s1, RetryAll(c, s1, peers[1..], dial, ans), multiset{});
    }
  }

  lemma ConnectingResultMoves(c: Config, s: State, id: TaskId, outcome: ConnectOutcome, ans: Answers)
    requires Inv(c, s) && id in s.dials && id !in s.parked
    ensures Moves(c, s, HandleConnectingResult(c, s, id, outcome, ans), multiset{})
  {
    hide Moves;
    var dial := s.dials[id];
    var ended := EndDial(s, id);
    EndedDial(c, s, id);
    Unmoved(c, s, ended);
    match outcome
    case Connected =>
      var connected := Connect(ended, dial.addr);
      ConnectKeeps(c, ended, dial.addr);
      Unmoved(c, s, connected);
      InstallAllMoves(c, connected, dial.peers, dial.addr, ans, {dial.addr});
      MovesTrans(c, s, connected, InstallAll(connected, dial.peers, dial.addr, ans), multiset{});
    case ConnectionFailed =>
      if dial.attempt < c.maxConnectionAttempts {
        RetryAllMoves(c, ended, dial.peers, dial, ans);
        MovesTrans(c, s, ended, RetryAll(c, ended, dial.peers, dial, ans), multiset{});
      } else {
        UnreachableAllMoves(c, ended, dial.peers);
        MovesTrans(c, s, ended, UnreachableAll(ended, dial.peers), multiset{});
      }
    case _ =>
      UnreachableAllMoves(c, ended, dial.peers);
      MovesTrans(c, s, ended, UnreachableAll(ended, dial.peers), multiset{});
  }

  lemma SetTaskHolds(s: State, id: TaskId, w: Worker, gained: multiset<Entry>, lost: multiset<Entry>)
    requires id in s.tasks && Carried(w) + lost == Carried(s.tasks[id]) + gained
    ensures Owned(SetTask(s, id, w)) + lost == Owned(s) + gained
  {
    BagSet(s.tasks, id, w, Carried);
    var others := Bag(s.queues, Queued);
    var rest := Bag(s.tasks - {id}, Carried);
    Cancel(Owned(SetTask(s, id, w)), Owned(s), Carried(s.tasks[id]), gained, lost, Carried(w)) by {
      assert (others + (Carried(w) + rest)) + Carried(s.tasks[id]) == (others + (Carried(s.tasks[id]) + rest)) + Carried(w);
    }
  }

  ghost function Noted(s: State, tx: Txn): State {
    s.(accepted := s.accepted + multiset{tx})
  }

  ghost predicate TooLarge(c: Config, tx: Txn) {
    |tx.wire| > TransactionDataSizeLimit(tx.wire) && !c.allowAnySize
  }

  lemma AcceptTooLarge(c: Config, s: State, tx: Txn, now: Instant, dest: Option<SocketAddr>, stake: nat)
    requires TooLarge(c, tx)
    ensures Moves(c, Noted(s, tx), AcceptTx(c, s, tx, now, dest, stake), multiset{Entry(tx, 1)})
  {
    hide Moves;
    RefuseMoves(c, Noted(s, tx), Noted(s, tx).(lastActivity := s.lastActivity[tx.peer := now]), tx.peer, Entry(tx, 1), InvalidPacketSize);
  }

  lemma AcceptForWorker(c: Config, s: State, tx: Txn, now: Instant, dest: Option<SocketAddr>, stake: nat)
    requires !TooLarge(c, tx) && tx.peer in s.workers && s.workers[tx.peer].task in s.tasks
    ensures Moves(c, Noted(s, tx), AcceptTx(c, s, tx, now, dest, stake), multiset{Entry(tx, 1)})
  {
    hide Moves;
    var s1 := Noted(s, tx).(lastActivity := s.lastActivity[tx.peer := now]);
    var id := s.workers[tx.peer].task;
    if |s.tasks[id].channel| < c.capacity {
      ChannelHolds(s1, id, tx);
      Conclude(c, Noted(s, tx), SetTask(s1, id, s1.tasks[id].(channel := s1.tasks[id].channel + [tx])), multiset{Entry(tx, 1)}, multiset{});
    } else {
      RefuseMoves(c, Noted(s, tx), s1, tx.peer, Entry(tx, 1), RateLimited);
    }
  }

  lemma AcceptWaiting(c: Config, s: State, tx: Txn, now: Instant, dest: Option<SocketAddr>, stake: nat)
    requires Inv(c, s) && !TooLarge(c, tx) && tx.peer !in s.workers
    ensures Moves(c, Noted(s, tx), AcceptTx(c, s, tx, now, dest, stake), multiset{Entry(tx, 1)})
  {
    hide Moves;
    var s1 := Noted(s, tx).(lastActivity := s.lastActivity[tx.peer := now]);
    NotingKeeps(c, s, s1.lastActivity, s1.accepted);
    QueueAndSpawnMoves(c, s1, tx.peer, Entry(tx, 1), dest, stake);
    var s' := AcceptTx(c, s, tx, now, dest, stake);
    var queued := QueueOrDrop(c, s1, tx.peer, Entry(tx, 1));
    assert s' == if HasRoom(c, s1, tx.peer) then SpawnConnecting(c, queued, tx.peer, 1, dest, stake) else queued;
    Unmoved(c, Noted(s, tx), s1);
    MovesAfter(c, Noted(s, tx), s1, s', multiset{Entry(tx, 1)});
  }

  /** Accepting a transaction adds its first attempt, wherever it ends up. */
  lemma AcceptTxMoves(c: Config, s: State, tx: Txn, now: Instant, dest: Option<SocketAddr>, stake: nat)
    requires Inv(c, s)
    ensures Moves(c, Noted(s, tx), AcceptTx(c, s, tx, now, dest, stake), multiset{Entry(tx, 1)})
  {
    hide Moves;
    if TooLarge(c, tx) {
      AcceptTooLarge(c, s, tx, now, dest, stake);
    } else if tx.peer in s.workers {
      assert OwnsTask(tx.peer, s.workers, s.tasks);
      AcceptForWorker(c, s, tx, now, dest, stake);
    } else {
      AcceptWaiting(c, s, tx, now, dest, stake);
    }
  }

  lemma QueueAndSpawnMoves(c: Config, s: State, p: Pubkey, e: Entry, dest: Option<SocketAddr>, stake: nat)
    requires Inv(c, s) && p !in s.workers && e.tx.peer == p
    ensures Moves(c, s, QueueOrDrop(c, s, p, e), multiset{e})
    ensures Moves(c, s, SpawnConnecting(c, QueueOrDrop(c, s, p, e), p, 1, dest, stake), multiset{e})
  {
    hide Moves;
    var queued := QueueOrDrop(c, s, p, e);
    QueueOrDropMoves(c, s, p, e);
    QueueOrDropKeeps(c, s, p, e);
    SpawnConnectingMoves(c, queued, p, 1, dest, stake);
    MovesTrans(c, s, queued, SpawnConnecting(c, queued, p, 1, dest, stake), multiset{e});
  }

  lemma RefuseMoves(c: Config, s0: State, s1: State, p: Pubkey, e: Entry, reason: DropReason)
    requires s1 == s0.(lastActivity := s1.lastActivity) && e.tx.peer == p
    ensures Moves(c, s0, Report(s1, TxDrop(p, reason, [e])), multiset{e})
  {
    var r := TxDrop(p, reason, [e]);
    ReportedOne(s0.responses, r);
    ExtendsOne(c, s0.responses, r);
    Conclude(c, s0, Report(s1, r), multiset{e}, multiset{e});
  }

  lemma ChannelHolds(s: State, id: TaskId, tx: Txn)
    requires id in s.tasks
    ensures Owned(SetTask(s, id, s.tasks[id].(channel := s.tasks[id].channel + [tx]))) == Owned(s) + multiset{Entry(tx, 1)}
  {
    var w := s.tasks[id];
    ChannelCarries(w, tx);
    SetTaskHolds(s, id, w.(channel := w.channel + [tx]), multiset{Entry(tx, 1)}, multiset{});
  }

  lemma ChannelCarries(w: Worker, tx: Txn)
    ensures Carried(w.(channel := w.channel + [tx])) == Carried(w) + multiset{Entry(tx, 1)}
  {
    assert Fresh(w.channel + [tx]) == Fresh(w.channel) + [Entry(tx, 1)];
  }

  lemma WorkerReceiveMoves(c: Config, s: State, id: TaskId)
    requires id in s.tasks && s.tasks[id].queue == [] && s.tasks[id].channel != []
    ensures Moves(c, s, WorkerReceive(s, id), multiset{})
  {
    var w := s.tasks[id];
    var w' := w.(channel := w.channel[1..], queue := [Entry(w.channel[0], 1)]);
    ReceiveCarries(w);
    SetTaskHolds(s, id, w', multiset{}, multiset{});
    Conclude(c, s, SetTask(s, id, w'), multiset{}, multiset{});
  }

  lemma ReceiveCarries(w: Worker)
    requires w.queue == [] && w.channel != []
    ensures Carried(w.(channel := w.channel[1..], queue := [Entry(w.channel[0], 1)])) == Carried(w)
  {
    var e := Entry(w.channel[0], 1);
    var rest := Fresh(w.channel[1..]);
    assert Leftover(w) == [e] + rest;
    assert Leftover(w.(channel := w.channel[1..], queue := [e])) == rest + [e];
  }

  /** Retiring a worker takes exactly its entries out of the held ones. */
  lemma RetireHolds(c: Config, s: State, id: TaskId, now: Instant)
    requires CanRetire(c, s, id)
    ensures Total(s) == Total(RetireWorker(s, id, now)) + Carried(s.tasks[id])
    ensures var t := RetireWorker(s, id, now);
            t.responses == s.responses && t.drains == s.drains && t.accepted == s.accepted && t.sends == s.sends
  {
    hide Reported;
    BagSplit(s.tasks, id, Carried);
  }

  lemma RescueMoves(c: Config, s: State, id: TaskId, now: Instant)
    requires Inv(c, s) && CanRetire(c, s, id)
    ensures Moves(c, s, QueueAll(c, RetireWorker(s, id, now), s.tasks[id].peer, Leftover(s.tasks[id])), multiset{})
  {
    hide InvExcept, Total, RetireWorker, QueueAll;
    var retired := RetireWorker(s, id, now);
    LeftoverIsForPeer(c, s, id);
    RetireHolds(c, s, id, now);
    QueueAllMoves(c, retired, s.tasks[id].peer, Leftover(s.tasks[id]));
  }

  /** A finished worker's entries are queued again, dropped with a report, or sent on to a new
      worker; none is lost. */
  lemma WorkerResultMoves(c: Config, s: State, id: TaskId, versionMismatch: bool, now: Instant, ans: Answers)
    requires Inv(c, s) && CanRetire(c, s, id)
    ensures Moves(c, s, HandleWorkerResult(c, s, id, versionMismatch, now, ans), multiset{})
  {
    hide Moves;
    var p := s.tasks[id].peer;
    var retired := RetireWorker(s, id, now);
    var entries := Leftover(s.tasks[id]);
    var rescued := QueueAll(c, retired, p, entries);
    RetireKeeps(c, s, id, now);
    LeftoverIsForPeer(c, s, id);
    QueueAllKeeps(c, retired, p, entries);
    RescueMoves(c, s, id, now);
    if versionMismatch {
      DropQueuedMoves(c, rescued, p, RemotePeerUnreachable);
      MovesTrans(c, s, rescued, DropQueued(rescued, p, RemotePeerUnreachable), multiset{});
    } else if p in s.evicted {
      DropQueuedMoves(c, rescued, p, RemotePeerBeingEvicted);
      MovesTrans(c, s, rescued, DropQueued(rescued, p, RemotePeerBeingEvicted), multiset{});
    } else if p in rescued.queues {
      var active := rescued.(lastActivity := rescued.lastActivity[p := now]);
      NotingKeeps(c, rescued, active.lastActivity, active.accepted);
      Unmoved(c, rescued, active);
      MovesTrans(c, s, rescued, active, multiset{});
      SpawnConnectingMoves(c, active, p, 1, ans.dest(p), ans.stake(p));
      MovesTrans(c, s, active, SpawnConnecting(c, active, p, 1, ans.dest(p), ans.stake(p)), multiset{});
    }
  }

  lemma {:induction false} SameBag<K, V>(m: map<K, V>, m': map<K, V>, entries: V -> multiset<Entry>)
    requires m.Keys == m'.Keys && forall k | k in m :: entries(m[k]) == entries(m'[k])
    ensures Bag(m, entries) == Bag(m', entries)
    decreases |m|
  {
    if m == map[] {
      assert m' == map[];
    } else {
      var k :| k in m && Bag(m, entries) == entries(m[k]) + Bag(m - {k}, entries);
      BagSplit(m', k, entries);
      assert (m - {k}).Keys == m.Keys - {k} && (m' - {k}).Keys == m'.Keys - {k};
      SameBag(m - {k}, m' - {k}, entries);
    }
  }

  lemma CancelHolds(tasks: map<TaskId, Worker>, peers: set<Pubkey>)
    ensures Bag(CancelTasks(tasks, peers), Carried) == Bag(tasks, Carried)
  {
    forall id | id in tasks ensures Carried(CancelTasks(tasks, peers)[id]) == Carried(tasks[id]) {
      assert Leftover(CancelTasks(tasks, peers)[id]) == Leftover(tasks[id]);
    }
    SameBag(CancelTasks(tasks, peers), tasks, Carried);
  }

  lemma EvictMoves(c: Config, s: State, plan: set<Pubkey>)
    ensures Moves(c, s, Evict(s, plan), multiset{})
  {
    CancelHolds(s.tasks, Companions(s, plan));
  }

  lemma DoEvictionMoves(c: Config, s: State, plan: seq<Pubkey>, fallback: Option<SocketAddr>)
    ensures Moves(c, s, DoEvictionIfRequired(s, plan, fallback), multiset{})
  {
    hide Moves;
    Unmoved(c, s, s);
    if EvictionsRequired(s) == 0 {
    } else if plan == [] && s.pending == {} {
      if fallback.Some? && fallback.value in s.conns {
        EvictMoves(c, s, s.conns[fallback.value].peers.Keys);
      }
    } else {
      EvictMoves(c, s, Elements(plan));
    }
  }

  lemma AddrChangeMoves(c: Config, s: State, changed: set<Pubkey>, ans: Answers)
    ensures Moves(c, s, HandleAddrChange(s, changed, ans), multiset{})
  {
    CancelHolds(s.tasks, MovedPeers(s, changed, ans));
  }

  lemma {:induction false} SpawnAllMoves(c: Config, s: State, peers: seq<Pubkey>, attempt: nat, ans: Answers)
    requires Inv(c, s) && 1 <= attempt <= Max(1, c.maxConnectionAttempts)
    ensures Moves(c, s, SpawnAll(c, s, peers, attempt, ans), multiset{})
    decreases |peers|
  {
    hide Moves;
    Unmoved(c, s, s);
    if peers != [] {
      var p := peers[0];
      var s1 := SpawnConnecting(c, s, p, attempt, ans.dest(p), ans.stake(p));
      SpawnConnectingKeeps(c, s, p, attempt, ans.dest(p), ans.stake(p));
      SpawnConnectingMoves(c, s, p, attempt, ans.dest(p), ans.stake(p));
      SpawnAllMoves(c, s1, peers[1..], attempt, ans);
      MovesTrans(c, s, s1, SpawnAll(c, s1, peers[1..], attempt, ans), multiset{});
    }
  }

  lemma ResetTotal(s: State, identity: Pubkey)
    ensures var r := ResetForIdentity(s, identity);
            && Total(r) == Total(s) && Owned(r) == multiset{}
            && Handed(r.drains) == Handed(s.drains) + Bag(s.tasks, Carried)
  {
    hide Reported, Away;
    AwayPush(s.drains, Drain(s.tasks, s.queues));
    Regroup(Bag(s.queues, Queued), Bag(s.tasks, Carried), Reported(s.responses), Away(s.drains));
  }

  lemma Regroup(q: multiset<Entry>, t: multiset<Entry>, r: multiset<Entry>, d: multiset<Entry>)
    ensures multiset{} + multiset{} + r + (d + t + q) == q + t + r + d
  {
  }

  lemma {:induction false} RedialMoves(c: Config, s: State, dials: seq<Dial>, ans: Answers)
    requires Inv(c, s) && forall i :: 0 <= i < |dials| ==> 1 <= dials[i].attempt <= Max(1, c.maxConnectionAttempts)
    ensures Moves(c, s, Redial(c, s, dials, ans), multiset{})
    decreases |dials|
  {
    hide Moves;
    Unmoved(c, s, s);
    if dials != [] {
      var s1 := SpawnAll(c, s, dials[0].peers, dials[0].attempt, ans);
      SpawnAllKeeps(c, s, dials[0].peers, dials[0].attempt, ans);
      SpawnAllMoves(c, s, dials[0].peers, dials[0].attempt, ans);
      RedialMoves(c, s1, dials[1..], ans);
      MovesTrans(c, s, s1, Redial(c, s1, dials[1..], ans), multiset{});
    }
  }

  lemma UpdateIdentityMoves(c: Config, s: State, identity: Pubkey, order: seq<TaskId>, ans: Answers)
    requires Inv(c, s) && forall id :: id in order ==> id in s.dials
    ensures Moves(c, ResetForIdentity(s, identity), UpdateIdentity(c, s, identity, order, ans), multiset{})
  {
    var dials := seq(|order|, i requires 0 <= i < |order| => s.dials[order[i]]);
    forall i | 0 <= i < |dials| ensures 1 <= dials[i].attempt <= Max(1, c.maxConnectionAttempts) {
      assert DialCurrent(c, order[i], s.dials, s.identity);
    }
    ResetInv(c, s, identity);
    RedialMoves(c, ResetForIdentity(s, identity), dials, ans);
  }
}
