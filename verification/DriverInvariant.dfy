/** What holds of the driver's maps between any two events, and that every handler keeps it.

    Each clause is a named predicate over the maps it is about; the quantifiers are triggered
    by those names only. */
module DriverInvariant {
  import opened Types
  import opened Bags
  import opened DriverState

  // ---------------------------------------------------------------- workers and connections

  /** The connection a worker was installed on is still the one at its address and lists it. */
  ghost predicate Served(p: Pubkey, workers: map<Pubkey, Handle>, conns: map<SocketAddr, Connection>) {
    && p in workers
    && workers[p].addr in conns
    && conns[workers[p].addr].version == workers[p].version
    && p in conns[workers[p].addr].peers
  }

  /** Every peer a connection lists has its worker there. */
  ghost predicate Staffed(a: SocketAddr, workers: map<Pubkey, Handle>, conns: map<SocketAddr, Connection>) {
    a in conns && forall p :: p in conns[a].peers ==> p in workers && workers[p].addr == a
  }

  ghost predicate Agreement(workers: map<Pubkey, Handle>, conns: map<SocketAddr, Connection>) {
    && (forall p {:trigger Served(p, workers, conns)} :: p in workers ==> Served(p, workers, conns))
    && (forall a {:trigger Staffed(a, workers, conns)} :: a in conns ==> Staffed(a, workers, conns))
  }

  ghost predicate OwnsTask(p: Pubkey, workers: map<Pubkey, Handle>, tasks: map<TaskId, Worker>) {
    && p in workers
    && workers[p].task in tasks
    && tasks[workers[p].task].peer == p
    && tasks[workers[p].task].addr == workers[p].addr
  }

  /** A task belongs to a worker, its channel is within capacity, and all it holds is for its peer. */
  ghost predicate TaskOk(c: Config, id: TaskId, workers: map<Pubkey, Handle>, tasks: map<TaskId, Worker>, next: nat) {
    && id in tasks
    && id < next
    && tasks[id].peer in workers
    && workers[tasks[id].peer].task == id
    && |tasks[id].channel| <= c.capacity
    && (forall tx :: tx in tasks[id].channel ==> tx.peer == tasks[id].peer)
    && (forall e :: e in tasks[id].queue ==> e.tx.peer == tasks[id].peer)
  }

  ghost predicate TaskAgreement(c: Config, workers: map<Pubkey, Handle>, tasks: map<TaskId, Worker>, next: nat) {
    && (forall p {:trigger OwnsTask(p, workers, tasks)} :: p in workers ==> OwnsTask(p, workers, tasks))
    && (forall id {:trigger TaskOk(c, id, workers, tasks, next)} :: id in tasks ==> TaskOk(c, id, workers, tasks, next))
  }

  /** A waiting queue is never empty, stays within capacity, holds only its peer's transactions,
      and exists only while the peer has no worker. */
  ghost predicate QueueOk(c: Config, p: Pubkey, queues: map<Pubkey, seq<Entry>>, workers: map<Pubkey, Handle>) {
    && p in queues
    && p !in workers
    && 0 < |queues[p]| <= c.capacity
    && (forall e :: e in queues[p] ==> e.tx.peer == p)
  }

  ghost predicate QueuesOk(c: Config, queues: map<Pubkey, seq<Entry>>, workers: map<Pubkey, Handle>) {
    forall p {:trigger QueueOk(c, p, queues, workers)} :: p in queues ==> QueueOk(c, p, queues, workers)
  }

  // ---------------------------------------------------------------- connection attempts

  ghost predicate DialOk(id: TaskId, dials: map<TaskId, Dial>, dialPeers: map<Pubkey, TaskId>, dialAddrs: map<SocketAddr, TaskId>, next: nat) {
    && id in dials
    && id < next
    && dials[id].peers != []
    && NoDuplicates(dials[id].peers)
    && (forall p :: p in dials[id].peers ==> p in dialPeers && dialPeers[p] == id)
    && dials[id].addr in dialAddrs
    && dialAddrs[dials[id].addr] == id
  }

  ghost predicate PeerDials(p: Pubkey, dials: map<TaskId, Dial>, dialPeers: map<Pubkey, TaskId>) {
    p in dialPeers && dialPeers[p] in dials && p in dials[dialPeers[p]].peers
  }

  ghost predicate AddrDials(a: SocketAddr, dials: map<TaskId, Dial>, dialAddrs: map<SocketAddr, TaskId>) {
    a in dialAddrs && dialAddrs[a] in dials && dials[dialAddrs[a]].addr == a
  }

  /** The three indexes of connection attempts are inverse to each other. */
  ghost predicate DialAgreement(dials: map<TaskId, Dial>, dialPeers: map<Pubkey, TaskId>, dialAddrs: map<SocketAddr, TaskId>, next: nat) {
    && (forall id {:trigger DialOk(id, dials, dialPeers, dialAddrs, next)} :: id in dials ==> DialOk(id, dials, dialPeers, dialAddrs, next))
    && (forall p {:trigger PeerDials(p, dials, dialPeers)} :: p in dialPeers ==> PeerDials(p, dials, dialPeers))
    && (forall a {:trigger AddrDials(a, dials, dialAddrs)} :: a in dialAddrs ==> AddrDials(a, dials, dialAddrs))
  }

  /** Every attempt carries the current identity and an attempt number the configuration allows. */
  ghost predicate DialCurrent(c: Config, id: TaskId, dials: map<TaskId, Dial>, identity: Pubkey) {
    id in dials && dials[id].identity == identity && 1 <= dials[id].attempt <= Max(1, c.maxConnectionAttempts)
  }

  ghost predicate DialsCurrent(c: Config, dials: map<TaskId, Dial>, identity: Pubkey) {
    forall id {:trigger DialCurrent(c, id, dials, identity)} :: id in dials ==> DialCurrent(c, id, dials, identity)
  }

  ghost predicate WaiterOk(w: Waiter, dials: map<TaskId, Dial>) {
    w.task in dials && dials[w.task].addr == w.addr
  }

  /** The waiters are distinct live attempts, and the parked tasks are exactly those of the waiters. */
  ghost predicate WaitersOk(blocked: seq<Waiter>, parked: set<TaskId>, dials: map<TaskId, Dial>) {
    && (forall w {:trigger WaiterOk(w, dials)} :: w in blocked ==> WaiterOk(w, dials))
    && NoDuplicates(WaiterTasks(blocked))
    && parked == Elements(WaiterTasks(blocked))
  }

  // ---------------------------------------------------------------- eviction and orphans

  ghost predicate PendingOk(e: ConnectionId, conns: map<SocketAddr, Connection>) {
    e.addr in conns && conns[e.addr].version == e.version && conns[e.addr].peers != map[]
  }

  ghost predicate PendingsOk(pending: set<ConnectionId>, conns: map<SocketAddr, Connection>) {
    forall e {:trigger PendingOk(e, conns)} :: e in pending ==> PendingOk(e, conns)
  }

  /** A peer being evicted has a stopped worker on a pending connection, and all the peers of
      that connection are being evicted too. */
  ghost predicate EvictedOk(p: Pubkey, evicted: set<Pubkey>, workers: map<Pubkey, Handle>, conns: map<SocketAddr, Connection>,
                            pending: set<ConnectionId>, tasks: map<TaskId, Worker>) {
    && p in workers
    && ConnectionId(workers[p].addr, workers[p].version) in pending
    && workers[p].addr in conns
    && conns[workers[p].addr].peers.Keys <= evicted
    && workers[p].task in tasks
    && tasks[workers[p].task].cancelled
  }

  ghost predicate EvictionClosed(evicted: set<Pubkey>, workers: map<Pubkey, Handle>, conns: map<SocketAddr, Connection>,
                                 pending: set<ConnectionId>, tasks: map<TaskId, Worker>) {
    forall p {:trigger EvictedOk(p, evicted, workers, conns, pending, tasks)} ::
      p in evicted ==> EvictedOk(p, evicted, workers, conns, pending, tasks)
  }

  ghost predicate OrphanOk(k: ConnectionId, conns: map<SocketAddr, Connection>) {
    k.addr in conns && conns[k.addr].version == k.version && conns[k.addr].peers == map[]
  }

  ghost predicate OrphanListed(a: SocketAddr, orphans: map<ConnectionId, Instant>, conns: map<SocketAddr, Connection>) {
    a in conns && (conns[a].peers == map[] ==> ConnectionId(a, conns[a].version) in orphans)
  }

  /** The orphan set is exactly the connections without peers, except that those at `unstaffed`
      may be missing: they have just been established and wait for their first worker. */
  ghost predicate OrphansExact(orphans: map<ConnectionId, Instant>, conns: map<SocketAddr, Connection>, unstaffed: set<SocketAddr>) {
    && (forall k {:trigger OrphanOk(k, conns)} :: k in orphans ==> OrphanOk(k, conns))
    && (forall a {:trigger OrphanListed(a, orphans, conns)} :: a in conns && a !in unstaffed ==> OrphanListed(a, orphans, conns))
  }

  // ---------------------------------------------------------------- stake indexes and versions

  ghost predicate AddrStaked(a: SocketAddr, addrStakes: map<SocketAddr, nat>, conns: map<SocketAddr, Connection>) {
    a in conns && a in addrStakes && addrStakes[a] == TotalStake(conns[a].peers)
  }

  ghost predicate StaleStake(a: SocketAddr, addrStakes: map<SocketAddr, nat>) {
    a in addrStakes && addrStakes[a] == 0
  }

  /** The address index holds the total stake of every connection; what it holds of addresses
      without a connection is zero. */
  ghost predicate AddrStakesOk(addrStakes: map<SocketAddr, nat>, conns: map<SocketAddr, Connection>, unstaffed: set<SocketAddr>) {
    && (forall a {:trigger AddrStaked(a, addrStakes, conns)} :: a in conns && a !in unstaffed ==> AddrStaked(a, addrStakes, conns))
    && (forall a {:trigger StaleStake(a, addrStakes)} :: a in addrStakes && a !in conns ==> StaleStake(a, addrStakes))
  }

  ghost predicate PeerStaked(p: Pubkey, peerStakes: map<Pubkey, nat>, workers: map<Pubkey, Handle>, conns: map<SocketAddr, Connection>) {
    && p in peerStakes
    && p in workers
    && workers[p].addr in conns
    && p in conns[workers[p].addr].peers
    && conns[workers[p].addr].peers[p] == peerStakes[p]
  }

  ghost predicate PeerStakesOk(peerStakes: map<Pubkey, nat>, workers: map<Pubkey, Handle>, conns: map<SocketAddr, Connection>) {
    && peerStakes.Keys == workers.Keys
    && (forall p {:trigger PeerStaked(p, peerStakes, workers, conns)} :: p in peerStakes ==> PeerStaked(p, peerStakes, workers, conns))
  }

  /** Versions are handed out once: no two connections share one. */
  ghost predicate VersionsFresh(conns: map<SocketAddr, Connection>, next: nat) {
    && (forall a :: a in conns ==> conns[a].version < next)
    && (forall a, b :: a in conns && b in conns && conns[a].version == conns[b].version ==> a == b)
  }

  // ---------------------------------------------------------------- the whole invariant

  /** The clauses about the three groups of maps, for a state in which the connections at
      `unstaffed` have just been established. */
  ghost predicate WorkersInv(c: Config, s: State) {
    && Agreement(s.workers, s.conns)
    && TaskAgreement(c, s.workers, s.tasks, s.nextTask)
    && QueuesOk(c, s.queues, s.workers)
    && PeerStakesOk(s.peerStakes, s.workers, s.conns)
    && VersionsFresh(s.conns, s.nextVersion)
  }

  ghost predicate DialsInv(c: Config, s: State) {
    && DialAgreement(s.dials, s.dialPeers, s.dialAddrs, s.nextTask)
    && DialsCurrent(c, s.dials, s.identity)
    && WaitersOk(s.blocked, s.parked, s.dials)
    && s.dialPeers.Keys !! s.workers.Keys
    && s.dialAddrs.Keys !! s.conns.Keys
  }

  ghost predicate EvictionInv(s: State, unstaffed: set<SocketAddr>) {
    && PendingsOk(s.pending, s.conns)
    && EvictionClosed(s.evicted, s.workers, s.conns, s.pending, s.tasks)
    && OrphansExact(s.orphans, s.conns, unstaffed)
    && AddrStakesOk(s.addrStakes, s.conns, unstaffed)
  }

  ghost predicate InvExcept(c: Config, s: State, unstaffed: set<SocketAddr>) {
    WorkersInv(c, s) && DialsInv(c, s) && EvictionInv(s, unstaffed)
  }

  ghost predicate Inv(c: Config, s: State) {
    InvExcept(c, s, {})
  }
}
