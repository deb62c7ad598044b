/** The state of the TPU sender driver and what each of its handlers does to it.

    The functions here are the specification of the handlers: they work on plain maps and
    have none of the branches that the invariant of `DriverInvariant` shows to be dead. */
module DriverState {
  import opened Types
  import opened Bags

  type TaskId = nat

  datatype Config = Config(
    capacity: nat,                 // of a worker's channel and of a peer's waiting queue
    maxConnections: nat,
    maxConnectionAttempts: nat,
    maxSendAttempts: nat,
    orphanTtl: nat,
    allowAnySize: bool)

  /** What the driver knows of a running worker: where it sends, over which connection, and
      the worker whose channel it feeds. */
  datatype Handle = Handle(addr: SocketAddr, version: nat, task: TaskId)

  /** A worker task: the channel the driver feeds, the worker's own queue, and whether it has
      been told to stop. */
  datatype Worker = Worker(peer: Pubkey, addr: SocketAddr, channel: seq<Txn>, queue: seq<Entry>, cancelled: bool)

  datatype Connection = Connection(version: nat, peers: map<Pubkey, nat>)

  datatype Dial = Dial(identity: Pubkey, peers: seq<Pubkey>, addr: SocketAddr, attempt: nat)

  /** A connection attempt that may not start before a connection has been evicted. */
  datatype Waiter = Waiter(addr: SocketAddr, task: TaskId)

  datatype DropReason =
    | RateLimited
    | RemotePeerUnreachable
    | RemotePeerBeingEvicted
    | InvalidPacketSize
    | DriverIdentityChanged

  datatype Response =
    | TxSent(peer: Pubkey, addr: SocketAddr, sent: Entry)
    | TxFailed(peer: Pubkey, addr: SocketAddr, failed: Entry)
    | TxDrop(peer: Pubkey, reason: DropReason, dropped: seq<Entry>)

  /** What an identity update leaves to a detached task: the workers of the old identity and the
      waiting queues. */
  datatype Drain = Drain(workers: map<TaskId, Worker>, queues: map<Pubkey, seq<Entry>>)

  datatype State = State(
    workers: map<Pubkey, Handle>,
    tasks: map<TaskId, Worker>,
    queues: map<Pubkey, seq<Entry>>,
    conns: map<SocketAddr, Connection>,
    dials: map<TaskId, Dial>,
    dialPeers: map<Pubkey, TaskId>,
    dialAddrs: map<SocketAddr, TaskId>,
    parked: set<TaskId>,           // connecting tasks that still wait to be unblocked
    blocked: seq<Waiter>,
    evicted: set<Pubkey>,
    pending: set<ConnectionId>,
    orphans: map<ConnectionId, Instant>,
    peerStakes: map<Pubkey, nat>,
    addrStakes: map<SocketAddr, nat>,
    lastActivity: map<Pubkey, Instant>,
    nextVersion: nat,
    nextTask: nat,
    identity: Pubkey,
    responses: seq<Response>,      // calls of the response callback, in order
    accepted: multiset<Txn>,
    sends: multiset<Entry>,        // send calls made by workers: the transaction and its attempt
    drains: seq<Drain>)            // one for each identity update so far

  /** Answers of the services the driver asks. A handler asks for a peer's address at most
      twice (`dest` first, `again` when it looks the peer up once more) and for its stake once. */
  datatype Answers = Answers(
    dest: Pubkey -> Option<SocketAddr>,
    again: Pubkey -> Option<SocketAddr>,
    stake: Pubkey -> nat)

  ghost function Initial(identity: Pubkey): State {
    State(map[], map[], map[], map[], map[], map[], map[], {}, [], {}, {}, map[], map[], map[], map[],
          0, 0, identity, [], multiset{}, multiset{}, [])
  }

  // ---------------------------------------------------------------- transaction queues

  const V1_TRANSACTION_PREFIX := 0x81
  const PACKET_DATA_SIZE := 1232
  const V1_TRANSACTION_DATA_SIZE := 4096

  function TransactionDataSizeLimit(wire: seq<Byte>): nat {
    if |wire| > 0 && wire[0] == V1_TRANSACTION_PREFIX then V1_TRANSACTION_DATA_SIZE else PACKET_DATA_SIZE
  }

  function Lookup<K, V>(m: map<K, V>, k: K, default: V): V {
    if k in m then m[k] else default
  }

  ghost function Report(s: State, r: Response): State {
    s.(responses := s.responses + [r])
  }

  /** Tells the callback that everything queued for `p` is dropped. */
  ghost function DropQueued(s: State, p: Pubkey, reason: DropReason): State {
    s.(queues := if p in s.queues then s.queues - {p} else s.queues,
       responses := if p in s.queues then s.responses + [TxDrop(p, reason, s.queues[p])] else s.responses)
  }

  ghost predicate HasRoom(c: Config, s: State, p: Pubkey) {
    |Lookup(s.queues, p, [])| < c.capacity
  }

  ghost function QueueOrDrop(c: Config, s: State, p: Pubkey, e: Entry): State {
    s.(queues := if HasRoom(c, s, p) then s.queues[p := Lookup(s.queues, p, []) + [e]] else s.queues,
       responses := if HasRoom(c, s, p) then s.responses else s.responses + [TxDrop(p, RateLimited, [e])])
  }

  /** One response per entry that found no room. */
  ghost function Refusals(p: Pubkey, entries: seq<Entry>): seq<Response> {
    if entries == [] then []
    else Refusals(p, entries[..|entries| - 1]) + [TxDrop(p, RateLimited, [entries[|entries| - 1]])]
  }

  /** Queues as many of the entries as there is room for, in order, and drops the others one by one. */
  ghost function QueueAll(c: Config, s: State, p: Pubkey, entries: seq<Entry>): State {
    var old' := Lookup(s.queues, p, []);
    var n := Min(|entries|, Saturating(c.capacity - |old'|));
    s.(queues := if n == 0 then s.queues else s.queues[p := old' + entries[..n]],
       responses := s.responses + Refusals(p, entries[n..]))
  }

  // ---------------------------------------------------------------- connecting

  ghost predicate PendingAt(s: State, addr: SocketAddr) {
    exists e :: e in s.pending && e.addr == addr
  }

  ghost function InstallWorker(s: State, p: Pubkey, addr: SocketAddr, stake: nat): State {
    if p in s.workers then s
    else if addr !in s.conns then DropQueued(s, p, RemotePeerUnreachable)
    else
      var conn := s.conns[addr];
      var peers := conn.peers[p := stake];
      s.(workers := s.workers[p := Handle(addr, conn.version, s.nextTask)],
         tasks := s.tasks[s.nextTask := Worker(p, addr, [], Lookup(s.queues, p, []), false)],
         nextTask := s.nextTask + 1,
         queues := s.queues - {p},
         conns := s.conns[addr := conn.(peers := peers)],
         addrStakes := s.addrStakes[addr := TotalStake(peers)],
         peerStakes := s.peerStakes[p := stake],
         orphans := s.orphans - {ConnectionId(addr, conn.version)})
  }

  ghost function InstallAll(s: State, peers: seq<Pubkey>, addr: SocketAddr, ans: Answers): State
    decreases |peers|
  {
    if peers == [] then s
    else InstallAll(InstallWorker(s, peers[0], addr, ans.stake(peers[0])), peers[1..], addr, ans)
  }

  /** Adds `p` to the connection attempt already under way to its address. */
  ghost function JoinDial(s: State, p: Pubkey, id: TaskId): State
    requires id in s.dials
  {
    s.(dials := s.dials[id := s.dials[id].(peers := s.dials[id].peers + [p])],
       dialPeers := s.dialPeers[p := id])
  }

  /** Starts a connection attempt; when all connections are taken it must wait for an eviction. */
  ghost function StartDial(c: Config, s: State, p: Pubkey, addr: SocketAddr, attempt: nat): State {
    var id := s.nextTask;
    var wait := |s.conns| >= c.maxConnections;
    s.(dials := s.dials[id := Dial(s.identity, [p], addr, attempt)],
       dialPeers := s.dialPeers[p := id],
       dialAddrs := s.dialAddrs[addr := id],
       nextTask := id + 1,
       blocked := if wait then s.blocked + [Waiter(addr, id)] else s.blocked,
       parked := if wait then s.parked + {id} else s.parked)
  }

  ghost function SpawnConnecting(c: Config, s: State, p: Pubkey, attempt: nat, dest: Option<SocketAddr>, stake: nat): State
  {
    if p in s.dialPeers || p in s.evicted || p in s.workers then s
    else if dest.None? then DropQueued(s, p, RemotePeerUnreachable)
    else
      var addr := dest.value;
      if PendingAt(s, addr) then s
      else if addr in s.conns then InstallWorker(s, p, addr, stake)
      else if addr in s.dialAddrs && s.dialAddrs[addr] in s.dials then JoinDial(s, p, s.dialAddrs[addr])
      else StartDial(c, s, p, addr, attempt)
  }

  datatype ConnectOutcome = Connected | EndpointStopping | ConnectionFailed | OtherFailure

  /** Takes the finished connection attempt out of the three indexes. */
  ghost function EndDial(s: State, id: TaskId): State
    requires id in s.dials
  {
    s.(dials := s.dials - {id},
       dialPeers := s.dialPeers - Elements(s.dials[id].peers),
       dialAddrs := s.dialAddrs - {s.dials[id].addr})
  }

  ghost function Connect(s: State, addr: SocketAddr): State {
    s.(conns := s.conns[addr := Connection(s.nextVersion, map[])], nextVersion := s.nextVersion + 1)
  }

  ghost function UnreachableAll(s: State, peers: seq<Pubkey>): State
    decreases |peers|
  {
    if peers == [] then s else UnreachableAll(DropQueued(s, peers[0], RemotePeerUnreachable), peers[1..])
  }

  /** The retry count goes on as long as the peer stays where it was, and restarts when it moved. */
  ghost function RetryAttempt(dial: Dial, latest: SocketAddr): nat {
    if latest != dial.addr then 1 else dial.attempt + 1
  }

  /** One peer of a failed attempt: given up if it has no address any more, else retried. */
  ghost function RetryPeer(c: Config, s: State, p: Pubkey, dial: Dial, ans: Answers): State {
    if ans.dest(p).None? then DropQueued(s, p, RemotePeerUnreachable)
    else SpawnConnecting(c, s, p, RetryAttempt(dial, ans.dest(p).value), ans.again(p), ans.stake(p))
  }

  ghost function RetryAll(c: Config, s: State, peers: seq<Pubkey>, dial: Dial, ans: Answers): State
    decreases |peers|
  {
    if peers == [] then s else RetryAll(c, RetryPeer(c, s, peers[0], dial, ans), peers[1..], dial, ans)
  }

  ghost function HandleConnectingResult(c: Config, s: State, id: TaskId, outcome: ConnectOutcome, ans: Answers): State
    requires id in s.dials
  {
    var dial := s.dials[id];
    var ended := EndDial(s, id);
    match outcome
    case Connected => InstallAll(Connect(ended, dial.addr), dial.peers, dial.addr, ans)
    case ConnectionFailed =>
      if dial.attempt < c.maxConnectionAttempts then RetryAll(c, ended, dial.peers, dial, ans)
      else UnreachableAll(ended, dial.peers)
    case _ => UnreachableAll(ended, dial.peers)
  }

  // ---------------------------------------------------------------- accepting transactions

  ghost function AcceptTx(c: Config, s: State, tx: Txn, now: Instant, dest: Option<SocketAddr>, stake: nat): State {
    var p := tx.peer;
    var s := s.(lastActivity := s.lastActivity[p := now], accepted := s.accepted + multiset{tx});
    if |tx.wire| > TransactionDataSizeLimit(tx.wire) && !c.allowAnySize then
      Report(s, TxDrop(p, InvalidPacketSize, [Entry(tx, 1)]))
    else if p in s.workers && s.workers[p].task in s.tasks then
      var id := s.workers[p].task;
      if |s.tasks[id].channel| < c.capacity then
        SetTask(s, id, s.tasks[id].(channel := s.tasks[id].channel + [tx]))
      else Report(s, TxDrop(p, RateLimited, [Entry(tx, 1)]))
    else if HasRoom(c, s, p) then
      SpawnConnecting(c, QueueOrDrop(c, s, p, Entry(tx, 1)), p, 1, dest, stake)
    else QueueOrDrop(c, s, p, Entry(tx, 1))
  }

  // ---------------------------------------------------------------- workers

  /** What a finished worker leaves behind: the unread channel, then its own queue. */
  function Leftover(w: Worker): seq<Entry> {
    Fresh(w.channel) + w.queue
  }

  function Fresh(txs: seq<Txn>): seq<Entry> {
    seq(|txs|, i requires 0 <= i < |txs| => Entry(txs[i], 1))
  }

  ghost function WaiterTasks(blocked: seq<Waiter>): seq<TaskId> {
    seq(|blocked|, i requires 0 <= i < |blocked| => blocked[i].task)
  }

  /** The waiters left after the first `n` were let go. */
  ghost function StillBlocked(blocked: seq<Waiter>, n: nat): seq<Waiter> {
    blocked[Min(n, |blocked|)..]
  }

  ghost function StillParked(blocked: seq<Waiter>, parked: set<TaskId>, n: nat): set<TaskId> {
    parked - Elements(WaiterTasks(blocked[..Min(n, |blocked|)]))
  }

  /** What is left of `conns` and its indexes once the connection at `addr` no longer serves `p`;
      a connection of another version is left alone. A connection left without peers is closed
      if it was to be evicted, which lets one waiter go on; otherwise it becomes an orphan. */
  ghost function Disconnect(s: State, addr: SocketAddr, p: Pubkey, version: nat, now: Instant): State {
    if addr !in s.conns || s.conns[addr].version != version then s
    else
      var peers := s.conns[addr].peers - {p};
      var key := ConnectionId(addr, version);
      var closes := peers == map[] && key in s.pending;
      s.(conns := if closes then s.conns - {addr} else s.conns[addr := s.conns[addr].(peers := peers)],
         pending := if closes then s.pending - {key} else s.pending,
         addrStakes := if closes then s.addrStakes - {addr} else s.addrStakes[addr := TotalStake(peers)],
         orphans := if !closes && peers == map[] && key !in s.orphans then s.orphans[key := now] else s.orphans,
         blocked := if closes then StillBlocked(s.blocked, 1) else s.blocked,
         parked := if closes then StillParked(s.blocked, s.parked, 1) else s.parked)
  }

  /** The state once the records of the finished task `id` and of its peer are gone; its entries
      are in the caller's hands. */
  ghost function Forgotten(s: State, id: TaskId): State
    requires id in s.tasks
  {
    var p := s.tasks[id].peer;
    s.(tasks := s.tasks - {id},
       peerStakes := s.peerStakes - {p},
       evicted := s.evicted - {p},
       workers := s.workers - {p},
       lastActivity := s.lastActivity - {p})
  }

  ghost function RetireWorker(s: State, id: TaskId, now: Instant): State
    requires id in s.tasks && s.tasks[id].peer in s.workers
  {
    var p := s.tasks[id].peer;
    Disconnect(Forgotten(s, id), s.workers[p].addr, p, s.workers[p].version, now)
  }

  ghost function HandleWorkerResult(c: Config, s: State, id: TaskId, versionMismatch: bool, now: Instant, ans: Answers): State
    requires id in s.tasks && s.tasks[id].peer in s.workers
  {
    var p := s.tasks[id].peer;
    var rescued := QueueAll(c, RetireWorker(s, id, now), p, Leftover(s.tasks[id]));
    if versionMismatch then DropQueued(rescued, p, RemotePeerUnreachable)
    else if p in s.evicted then DropQueued(rescued, p, RemotePeerBeingEvicted)
    else if p in rescued.queues then
      SpawnConnecting(c, rescued.(lastActivity := rescued.lastActivity[p := now]), p, 1, ans.dest(p), ans.stake(p))
    else rescued
  }

  datatype SendResult = Sent | StreamStopped | ConnectionLost | ZeroRttRejected

  ghost function SetTask(s: State, id: TaskId, w: Worker): State {
    s.(tasks := s.tasks[id := w])
  }

  /** The worker takes a transaction from its channel; it does so only with an empty queue. */
  ghost function WorkerReceive(s: State, id: TaskId): State
    requires id in s.tasks && s.tasks[id].queue == [] && s.tasks[id].channel != []
  {
    var w := s.tasks[id];
    SetTask(s, id, w.(channel := w.channel[1..], queue := [Entry(w.channel[0], 1)]))
  }

  /** What a worker's queue is after a send call for its head: a failed call with attempts left
      puts the next attempt at the back. */
  function AfterCall(queue: seq<Entry>, result: SendResult, maxAttempts: nat): seq<Entry>
    requires queue != []
  {
    if result.Sent? || queue[0].attempt >= maxAttempts then queue[1..]
    else queue[1..] + [Entry(queue[0].tx, queue[0].attempt + 1)]
  }

  /** The responses of a worker's send call. */
  function Answered(w: Worker, result: SendResult, maxAttempts: nat): seq<Response>
    requires w.queue != []
  {
    if result.Sent? then [TxSent(w.peer, w.addr, w.queue[0])]
    else if w.queue[0].attempt >= maxAttempts then [TxFailed(w.peer, w.addr, w.queue[0])]
    else []
  }

  /** The worker makes one send call for the head of its queue. */
  ghost function WorkerSend(c: Config, s: State, id: TaskId, result: SendResult): State
    requires id in s.tasks && s.tasks[id].queue != []
  {
    var w := s.tasks[id];
    s.(tasks := s.tasks[id := w.(queue := AfterCall(w.queue, result, c.maxSendAttempts))],
       sends := s.sends + multiset{w.queue[0]},
       responses := s.responses + Answered(w, result, c.maxSendAttempts))
  }

  // ---------------------------------------------------------------- workers of an old identity

  ghost function SetDrained(s: State, k: nat, id: TaskId, w: Worker): State
    requires k < |s.drains|
  {
    s.(drains := s.drains[k := s.drains[k].(workers := s.drains[k].workers[id := w])])
  }

  ghost function DrainReceive(s: State, k: nat, id: TaskId): State
    requires k < |s.drains| && id in s.drains[k].workers
    requires s.drains[k].workers[id].queue == [] && s.drains[k].workers[id].channel != []
  {
    var w := s.drains[k].workers[id];
    SetDrained(s, k, id, w.(channel := w.channel[1..], queue := [Entry(w.channel[0], 1)]))
  }

  ghost function DrainSend(c: Config, s: State, k: nat, id: TaskId, result: SendResult): State
    requires k < |s.drains| && id in s.drains[k].workers && s.drains[k].workers[id].queue != []
  {
    var w := s.drains[k].workers[id];
    s.(drains := SetDrained(s, k, id, w.(queue := AfterCall(w.queue, result, c.maxSendAttempts))).drains,
       sends := s.sends + multiset{w.queue[0]},
       responses := s.responses + Answered(w, result, c.maxSendAttempts))
  }

  /** A worker of an old identity has ended: the detached task drops the queue of its peer, if one
      was handed over, together with what the worker left, and reports it even when it is empty. */
  ghost function DrainFinish(s: State, k: nat, id: TaskId): State
    requires k < |s.drains| && id in s.drains[k].workers
  {
    var d := s.drains[k];
    var w := d.workers[id];
    s.(drains := s.drains[k := Drain(d.workers - {id}, d.queues - {w.peer})],
       responses := s.responses + [TxDrop(w.peer, DriverIdentityChanged, Lookup(d.queues, w.peer, []) + Leftover(w))])
  }

  // ---------------------------------------------------------------- eviction

  ghost function EvictionsRequired(s: State): nat {
    Saturating(|s.blocked| - |s.pending|)
  }

  /** `addr` has the least total stake of all connections. */
  ghost predicate LeastStaked(s: State, addr: SocketAddr) {
    addr in s.conns && forall a :: a in s.conns ==> TotalStake(s.conns[addr].peers) <= TotalStake(s.conns[a].peers)
  }

  /** The connections the plan hits: those that serve a planned peer. */
  ghost function Targets(s: State, plan: set<Pubkey>): set<ConnectionId> {
    set p | p in plan && p in s.workers :: ConnectionId(s.workers[p].addr, s.workers[p].version)
  }

  /** Every peer that shares a connection with a planned peer. */
  ghost function Companions(s: State, plan: set<Pubkey>): set<Pubkey> {
    set p, q | p in plan && p in s.workers && s.workers[p].addr in s.conns && q in s.conns[s.workers[p].addr].peers :: q
  }

  ghost function CancelTasks(tasks: map<TaskId, Worker>, peers: set<Pubkey>): map<TaskId, Worker> {
    map id | id in tasks :: if tasks[id].peer in peers then tasks[id].(cancelled := true) else tasks[id]
  }

  /** Marks the planned connections as pending and stops every worker on them. */
  ghost function Evict(s: State, plan: set<Pubkey>): State {
    s.(pending := s.pending + Targets(s, plan),
       evicted := s.evicted + Companions(s, plan),
       tasks := CancelTasks(s.tasks, Companions(s, plan)))
  }

  /** `plan` is what the eviction strategy proposed. If that is empty and nothing is pending, the
      least staked connection (`fallback`, when there is any connection) is evicted instead. */
  ghost function DoEvictionIfRequired(s: State, plan: seq<Pubkey>, fallback: Option<SocketAddr>): State {
    if EvictionsRequired(s) == 0 then s
    else if plan == [] && s.pending == {} then
      match fallback
      case Some(addr) => if addr in s.conns then Evict(s, s.conns[addr].peers.Keys) else s
      case None => s
    else Evict(s, Elements(plan))
  }

  ghost predicate Moved(s: State, p: Pubkey, ans: Answers) {
    p in s.workers && (ans.dest(p).None? || ans.dest(p).value != s.workers[p].addr)
  }

  ghost predicate Vanished(s: State, p: Pubkey, ans: Answers) {
    p in s.workers && ans.dest(p).None?
  }

  ghost function MovedPeers(s: State, changed: set<Pubkey>, ans: Answers): set<Pubkey> {
    set p | p in changed && Moved(s, p, ans)
  }

  ghost function VanishedIds(s: State, changed: set<Pubkey>, ans: Answers): set<ConnectionId> {
    set p | p in changed && Vanished(s, p, ans) :: ConnectionId(s.workers[p].addr, s.workers[p].version)
  }

  /** Stops the workers of peers that moved; the connection of a peer that has no address any
      more is to be evicted as well. */
  ghost function HandleAddrChange(s: State, changed: set<Pubkey>, ans: Answers): State {
    s.(tasks := CancelTasks(s.tasks, MovedPeers(s, changed, ans)),
       pending := s.pending + VanishedIds(s, changed, ans))
  }

  ghost function Expired(c: Config, s: State, now: Instant): set<ConnectionId> {
    set k | k in s.orphans && s.orphans[k] + c.orphanTtl <= now
  }

  ghost function Addresses(ids: set<ConnectionId>): set<SocketAddr> {
    set k | k in ids :: k.addr
  }

  /** The orphans `gone` are closed; each lets one waiter go on. */
  ghost function Swept(s: State, gone: set<ConnectionId>): State {
    s.(orphans := s.orphans - gone,
       conns := s.conns - Addresses(gone),
       blocked := StillBlocked(s.blocked, |gone|),
       parked := StillParked(s.blocked, s.parked, |gone|))
  }

  /** Closes every connection that has been an orphan for too long. */
  ghost function TryEvictOrphans(c: Config, s: State, now: Instant): State {
    Swept(s, Expired(c, s, now))
  }

  // ---------------------------------------------------------------- prediction and identity

  ghost function SpawnAll(c: Config, s: State, peers: seq<Pubkey>, attempt: nat, ans: Answers): State
    decreases |peers|
  {
    if peers == [] then s
    else SpawnAll(c, SpawnConnecting(c, s, peers[0], attempt, ans.dest(peers[0]), ans.stake(peers[0])), peers[1..], attempt, ans)
  }

  ghost function Queued(q: seq<Entry>): multiset<Entry> {
    multiset(q)
  }

  ghost function Carried(w: Worker): multiset<Entry> {
    multiset(Leftover(w))
  }

  /** Clears everything tied to the old identity; workers and waiting queues go to a detached task. */
  ghost function ResetForIdentity(s: State, identity: Pubkey): State {
    s.(workers := map[], tasks := map[], queues := map[], conns := map[],
       dials := map[], dialPeers := map[], dialAddrs := map[], parked := {}, blocked := [],
       evicted := {}, pending := {}, orphans := map[], peerStakes := map[], addrStakes := map[],
       identity := identity,
       drains := s.drains + [Drain(s.tasks, s.queues)])
  }

  /** Replays the attempts that were under way, in the order the map yields them. */
  ghost function Redial(c: Config, s: State, dials: seq<Dial>, ans: Answers): State
    decreases |dials|
  {
    if dials == [] then s
    else Redial(c, SpawnAll(c, s, dials[0].peers, dials[0].attempt, ans), dials[1..], ans)
  }

  ghost function UpdateIdentity(c: Config, s: State, identity: Pubkey, order: seq<TaskId>, ans: Answers): State
    requires forall id :: id in order ==> id in s.dials
  {
    Redial(c, ResetForIdentity(s, identity), seq(|order|, i requires 0 <= i < |order| => s.dials[order[i]]), ans)
  }
}
