/** Asking for connections. Every handler that wants a peer connected ends in `SpawnConnecting`,
    once or in a loop; `Asked` says, for all its peers at once, what has come of it. */
module DriverAsking {
  import opened Types
  import opened DriverState
  import opened DriverInvariant
  import opened DriverSteps
  import opened DriverClosing

  /** For each peer asked for: its address, if it has one, the number of the attempt it may start,
      and its stake. */
  datatype Orders = Orders(to: Pubkey -> Option<SocketAddr>, attempt: Pubkey -> nat, stake: Pubkey -> nat)

  // ---------------------------------------------------------------- what may come of it

  /** What asking never changes, and what it only adds to. */
  ghost predicate Frame(s: State, u: State) {
    && u.pending == s.pending && u.evicted == s.evicted && u.identity == s.identity
    && u.conns.Keys == s.conns.Keys && (forall a :: a in s.conns ==> u.conns[a].version == s.conns[a].version)
    && s.responses <= u.responses && s.blocked <= u.blocked && s.nextTask <= u.nextTask
    && (forall id :: id in s.tasks ==> id in u.tasks && u.tasks[id] == s.tasks[id])
    && (forall k :: k in u.orphans ==> k in s.orphans && u.orphans[k] == s.orphans[k])
  }

  /** An attempt that was under way goes on, perhaps for more peers. */
  ghost predicate GoesOn(s: State, u: State, i: TaskId)
    requires i in s.dials
  {
    && i in u.dials && (i in u.parked <==> i in s.parked)
    && u.dials[i].identity == s.dials[i].identity && u.dials[i].addr == s.dials[i].addr
    && u.dials[i].attempt == s.dials[i].attempt && s.dials[i].peers <= u.dials[i].peers
  }

  /** A new attempt goes where its first peer is, has that peer's number and the current identity,
      and has to wait exactly if all connections are taken. */
  ghost predicate Started(c: Config, s: State, u: State, i: TaskId, peers: set<Pubkey>, r: Orders)
    requires i in u.dials
  {
    var d := u.dials[i];
    && s.nextTask <= i < u.nextTask
    && d.peers != [] && d.peers[0] in peers
    && r.to(d.peers[0]) == Some(d.addr) && d.attempt == r.attempt(d.peers[0]) && d.identity == s.identity
    && (i in u.parked <==> |s.conns| >= c.maxConnections)
  }

  ghost predicate DialsGrow(c: Config, s: State, u: State, peers: set<Pubkey>, r: Orders) {
    && (forall i :: i in s.dials ==> GoesOn(s, u, i))
    && (forall i :: i in u.dials && i !in s.dials ==> Started(c, s, u, i, peers, r))
  }

  ghost predicate SameQueue(s: State, u: State, p: Pubkey) {
    (p in u.queues <==> p in s.queues) && (p in s.queues ==> u.queues[p] == s.queues[p])
  }

  /** Nothing has changed for the peer. */
  ghost predicate Still(s: State, u: State, p: Pubkey) {
    && SameQueue(s, u, p)
    && (p in u.dialPeers <==> p in s.dialPeers) && (p in s.dialPeers ==> u.dialPeers[p] == s.dialPeers[p])
    && (p in u.workers <==> p in s.workers) && (p in s.workers ==> u.workers[p] == s.workers[p])
    && (p in u.peerStakes <==> p in s.peerStakes) && (p in s.peerStakes ==> u.peerStakes[p] == s.peerStakes[p])
  }

  /** The peer is given up, and its queue reported. */
  ghost predicate GivenUp(s: State, u: State, p: Pubkey) {
    && p !in u.queues && p !in u.dialPeers && p !in u.workers
    && (p in s.queues ==> TxDrop(p, RemotePeerUnreachable, s.queues[p]) in u.responses)
  }

  /** The peer has a new worker over the connection at `a`, which holds its queue. */
  ghost predicate Serves(s: State, u: State, p: Pubkey, a: SocketAddr, stake: nat)
    requires a in s.conns
  {
    && p in u.workers && u.workers[p].addr == a && u.workers[p].version == s.conns[a].version
    && s.nextTask <= u.workers[p].task && u.workers[p].task in u.tasks
    && u.tasks[u.workers[p].task] == Worker(p, a, [], Lookup(s.queues, p, []), false)
    && p !in u.queues && p !in u.dialPeers && p in u.peerStakes && u.peerStakes[p] == stake
  }

  /** An attempt to the address is under way for the peer. */
  ghost predicate Dials(s: State, u: State, p: Pubkey, a: SocketAddr) {
    && p in u.dialPeers && u.dialPeers[p] in u.dials && u.dials[u.dialPeers[p]].addr == a
    && SameQueue(s, u, p) && p !in u.workers
  }

  ghost predicate Outcome(s: State, u: State, p: Pubkey, r: Orders) {
    match r.to(p)
    case None => GivenUp(s, u, p)
    case Some(a) =>
      if PendingAt(s, a) then Still(s, u, p)
      else if a in s.conns then Serves(s, u, p, a, r.stake(p))
      else Dials(s, u, p, a)
  }

  ghost predicate Asked(c: Config, s: State, u: State, peers: set<Pubkey>, r: Orders) {
    && Frame(s, u) && DialsGrow(c, s, u, peers, r)
    && (forall p {:trigger Outcome(s, u, p, r)} :: p in peers ==> Outcome(s, u, p, r))
    && (forall p {:trigger Still(s, u, p)} :: p !in peers ==> Still(s, u, p))
  }

  /** Those of the peers that have neither a worker nor an attempt. */
  ghost function Wanting(s: State, peers: set<Pubkey>): set<Pubkey> {
    peers - s.dialPeers.Keys - s.workers.Keys
  }

  // ---------------------------------------------------------------- one peer

  lemma AskNobody(c: Config, s: State, r: Orders)
    ensures Asked(c, s, s, {}, r)
  {
  }

  lemma AskWithoutAddress(c: Config, s: State, p: Pubkey, r: Orders)
    requires r.to(p).None? && p !in s.dialPeers && p !in s.workers
    ensures Asked(c, s, DropQueued(s, p, RemotePeerUnreachable), {p}, r)
  {
    var u := DropQueued(s, p, RemotePeerUnreachable);
    if p in s.queues {
      assert u.responses[|s.responses|] == TxDrop(p, RemotePeerUnreachable, s.queues[p]);
    }
  }

  lemma AskRefused(c: Config, s: State, p: Pubkey, r: Orders)
    requires r.to(p).Some? && PendingAt(s, r.to(p).value)
    ensures Asked(c, s, s, {p}, r)
  {
  }

  lemma AskInstalls(c: Config, s: State, p: Pubkey, a: SocketAddr, r: Orders)
    requires r.to(p) == Some(a) && !PendingAt(s, a) && a in s.conns && s.nextTask !in s.tasks
    requires p !in s.dialPeers && p !in s.workers && forall i :: i in s.dials ==> i < s.nextTask
    ensures Asked(c, s, InstallWorker(s, p, a, r.stake(p)), {p}, r)
  {
    hide PendingAt, Frame, Still, Serves, InstallWorker;
    InstallsFrame(s, p, a, r.stake(p));
    InstallsOne(s, p, a, r.stake(p));
  }

  lemma InstallsFrame(s: State, p: Pubkey, a: SocketAddr, stake: nat)
    requires a in s.conns && p !in s.workers && s.nextTask !in s.tasks
    ensures var u := InstallWorker(s, p, a, stake);
            Frame(s, u) && u.dials == s.dials && u.parked == s.parked
  {
  }

  lemma InstallsOne(s: State, p: Pubkey, a: SocketAddr, stake: nat)
    requires a in s.conns && p !in s.workers && p !in s.dialPeers
    ensures var u := InstallWorker(s, p, a, stake);
            Serves(s, u, p, a, stake) && forall q {:trigger Still(s, u, q)} :: q != p ==> Still(s, u, q)
  {
  }

  lemma AskJoins(c: Config, s: State, p: Pubkey, a: SocketAddr, i: TaskId, r: Orders)
    requires r.to(p) == Some(a) && !PendingAt(s, a) && a !in s.conns && p !in s.dialPeers && p !in s.workers
    requires i in s.dials && s.dials[i].addr == a
    ensures Asked(c, s, JoinDial(s, p, i), {p}, r)
  {
    hide PendingAt;
  }

  lemma AskStarts(c: Config, s: State, p: Pubkey, a: SocketAddr, r: Orders)
    requires r.to(p) == Some(a) && !PendingAt(s, a) && a !in s.conns && p !in s.dialPeers && p !in s.workers
    requires s.nextTask !in s.dials && s.nextTask !in s.parked
    ensures Asked(c, s, StartDial(c, s, p, a, r.attempt(p)), {p}, r)
  {
    hide PendingAt, Frame, Still, Dials, StartDial;
    StartsFrame(c, s, p, a, r.attempt(p));
    StartsOne(c, s, p, a, r.attempt(p));
  }

  lemma StartsFrame(c: Config, s: State, p: Pubkey, a: SocketAddr, attempt: nat)
    ensures var u := StartDial(c, s, p, a, attempt);
            && Frame(s, u) && u.dials == s.dials[s.nextTask := Dial(s.identity, [p], a, attempt)] && u.nextTask == s.nextTask + 1
            && u.parked == if |s.conns| >= c.maxConnections then s.parked + {s.nextTask} else s.parked
  {
  }

  lemma StartsOne(c: Config, s: State, p: Pubkey, a: SocketAddr, attempt: nat)
    requires p !in s.workers
    ensures var u := StartDial(c, s, p, a, attempt);
            Dials(s, u, p, a) && forall q {:trigger Still(s, u, q)} :: q != p ==> Still(s, u, q)
  {
  }

  lemma NextTaskIsNew(c: Config, s: State)
    requires Inv(c, s)
    ensures s.nextTask !in s.tasks && s.nextTask !in s.dials && s.nextTask !in s.parked
    ensures forall i :: i in s.dials ==> i < s.nextTask
  {
    assert s.nextTask in s.tasks ==> TaskOk(c, s.nextTask, s.workers, s.tasks, s.nextTask);
    forall i | i in s.dials ensures i < s.nextTask {
      assert DialOk(i, s.dials, s.dialPeers, s.dialAddrs, s.nextTask);
    }
    var tasks := WaiterTasks(s.blocked);
    forall i | i in s.parked ensures i in s.dials {
      var k :| 0 <= k < |tasks| && tasks[k] == i;
      assert WaiterOk(s.blocked[k], s.dials);
    }
  }

  lemma {:induction false} SpawnAsks(c: Config, s: State, p: Pubkey, attempt: nat, dest: Option<SocketAddr>, stake: nat, r: Orders)
    requires Inv(c, s)
    requires r.to(p) == dest && r.attempt(p) == attempt && r.stake(p) == stake
    ensures Asked(c, s, SpawnConnecting(c, s, p, attempt, dest, stake), Wanting(s, {p}), r)
  {
    hide Asked, InvExcept, InstallWorker, DropQueued, JoinDial, StartDial, PendingAt;
    NextTaskIsNew(c, s);
    EvictedHasWorker(c, s, p);
    if p in s.dialPeers || p in s.workers {
      AskNobody(c, s, r);
      assert Wanting(s, {p}) == {};
    } else {
      assert Wanting(s, {p}) == {p};
      if dest.None? {
        AskWithoutAddress(c, s, p, r);
      } else if PendingAt(s, dest.value) {
        AskRefused(c, s, p, r);
      } else if dest.value in s.conns {
        AskInstalls(c, s, p, dest.value, r);
      } else if dest.value in s.dialAddrs && s.dialAddrs[dest.value] in s.dials {
        DialsAddress(c, s, dest.value);
        AskJoins(c, s, p, dest.value, s.dialAddrs[dest.value], r);
      } else {
        AskStarts(c, s, p, dest.value, r);
      }
    }
  }

  lemma EvictedHasWorker(c: Config, s: State, p: Pubkey)
    requires Inv(c, s)
    ensures p in s.evicted ==> p in s.workers
  {
    if p in s.evicted {
      assert EvictedOk(p, s.evicted, s.workers, s.conns, s.pending, s.tasks);
    }
  }

  lemma DialsAddress(c: Config, s: State, a: SocketAddr)
    requires Inv(c, s) && a in s.dialAddrs
    ensures s.dialAddrs[a] in s.dials && s.dials[s.dialAddrs[a]].addr == a
  {
    assert AddrDials(a, s.dials, s.dialAddrs);
  }

  // ---------------------------------------------------------------- one after the other

  lemma FrameTrans(s: State, u: State, w: State)
    requires Frame(s, u) && Frame(u, w)
    ensures Frame(s, w)
  {
  }

  lemma GrowTrans(c: Config, s: State, u: State, w: State, peers: set<Pubkey>, more: set<Pubkey>, r: Orders)
    requires Frame(s, u) && Frame(u, w) && DialsGrow(c, s, u, peers, r) && DialsGrow(c, u, w, more, r)
    ensures DialsGrow(c, s, w, peers + more, r)
  {
    forall i | i in s.dials ensures GoesOn(s, w, i) {
      assert GoesOn(s, u, i) && GoesOn(u, w, i);
    }
    assert |u.conns.Keys| == |u.conns| && |s.conns.Keys| == |s.conns|;
    forall i | i in w.dials && i !in s.dials ensures Started(c, s, w, i, peers + more, r) {
      if i in u.dials {
        assert Started(c, s, u, i, peers, r) && GoesOn(u, w, i);
        assert w.dials[i].peers[0] == u.dials[i].peers[0];
      } else {
        assert Started(c, u, w, i, more, r);
      }
    }
  }

  lemma StillTrans(s: State, u: State, w: State, p: Pubkey)
    requires Still(s, u, p) && Still(u, w, p)
    ensures Still(s, w, p)
  {
  }

  /** What has come of a peer stays, while others are asked for. */
  lemma OutcomeStays(c: Config, s: State, u: State, w: State, p: Pubkey, more: set<Pubkey>, r: Orders)
    requires Outcome(s, u, p, r) && Still(u, w, p) && Frame(u, w) && DialsGrow(c, u, w, more, r)
    ensures Outcome(s, w, p, r)
  {
    hide Started, PendingAt;
    if p in u.dialPeers && u.dialPeers[p] in u.dials {
      assert GoesOn(u, w, u.dialPeers[p]);
    }
  }

  lemma SamePendings(s: State, u: State, a: SocketAddr)
    requires u.pending == s.pending
    ensures PendingAt(u, a) == PendingAt(s, a)
  {
  }

  /** A peer asked for later was still as it was before. */
  lemma OutcomeLater(s: State, u: State, w: State, p: Pubkey, r: Orders)
    requires Frame(s, u) && Frame(u, w) && Still(s, u, p) && Outcome(u, w, p, r)
    ensures Outcome(s, w, p, r)
  {
    hide PendingAt;
    if r.to(p).Some? {
      SamePendings(s, u, r.to(p).value);
    }
  }

  /** A peer asked for twice, because the first time nothing came of it. */
  lemma OutcomeTwice(s: State, u: State, w: State, p: Pubkey, r: Orders)
    requires Frame(s, u) && Frame(u, w) && Outcome(s, u, p, r) && Outcome(u, w, p, r)
    requires p !in u.dialPeers && p !in u.workers
    ensures Outcome(s, w, p, r)
  {
    hide PendingAt;
    if r.to(p).Some? {
      SamePendings(s, u, r.to(p).value);
    }
  }

  lemma {:induction false} AskedTrans(c: Config, s: State, u: State, w: State, peers: set<Pubkey>, more: set<Pubkey>, r: Orders)
    requires Asked(c, s, u, peers, r) && Asked(c, u, w, more, r)
    requires forall p :: p in more ==> p !in u.dialPeers && p !in u.workers
    ensures Asked(c, s, w, peers + more, r)
  {
    hide Frame, DialsGrow, Outcome, Still;
    FrameTrans(s, u, w);
    GrowTrans(c, s, u, w, peers, more, r);
    forall p | p in peers + more ensures Outcome(s, w, p, r) {
      if p !in more {
        assert Outcome(s, u, p, r) && Still(u, w, p);
        OutcomeStays(c, s, u, w, p, more, r);
      } else if p !in peers {
        assert Still(s, u, p) && Outcome(u, w, p, r);
        OutcomeLater(s, u, w, p, r);
      } else {
        assert Outcome(s, u, p, r) && Outcome(u, w, p, r);
        OutcomeTwice(s, u, w, p, r);
      }
    }
    forall p | p !in peers + more ensures Still(s, w, p) {
      assert Still(s, u, p) && Still(u, w, p);
      StillTrans(s, u, w, p);
    }
  }

  /** Who still wants a connection once some of the wanting were asked for. */
  lemma WantingLater(c: Config, s: State, u: State, peers: set<Pubkey>, more: set<Pubkey>, r: Orders)
    requires Asked(c, s, u, Wanting(s, peers), r)
    ensures Wanting(s, peers) + Wanting(u, more) == Wanting(s, peers + more)
    ensures forall p :: p in Wanting(u, more) ==> p !in u.dialPeers && p !in u.workers
  {
    hide Frame, DialsGrow, Outcome;
    forall p | p in more && p !in Wanting(s, peers)
      ensures p in Wanting(u, more) <==> p in Wanting(s, more)
    {
      assert Still(s, u, p);
    }
  }

  // ---------------------------------------------------------------- the loops

  lemma {:induction false} SpawnAllAsks(c: Config, s: State, peers: seq<Pubkey>, attempt: nat, ans: Answers, r: Orders)
    requires Inv(c, s) && 1 <= attempt <= Max(1, c.maxConnectionAttempts)
    requires forall p :: p in peers ==> r.to(p) == ans.dest(p) && r.attempt(p) == attempt && r.stake(p) == ans.stake(p)
    ensures Asked(c, s, SpawnAll(c, s, peers, attempt, ans), Wanting(s, Elements(peers)), r)
    decreases |peers|
  {
    hide Asked, InvExcept, SpawnConnecting, Wanting;
    if peers == [] {
      AskNobody(c, s, r);
      NobodyWants(s);
    } else {
      var p := peers[0];
      var u := SpawnConnecting(c, s, p, attempt, ans.dest(p), ans.stake(p));
      var w := SpawnAll(c, u, peers[1..], attempt, ans);
      SpawnAsks(c, s, p, attempt, ans.dest(p), ans.stake(p), r);
      SpawnConnectingKeeps(c, s, p, attempt, ans.dest(p), ans.stake(p));
      SpawnAllAsks(c, u, peers[1..], attempt, ans, r);
      WantingLater(c, s, u, {p}, Elements(peers[1..]), r);
      AskedTrans(c, s, u, w, Wanting(s, {p}), Wanting(u, Elements(peers[1..])), r);
      FirstAndRest(peers);
    }
  }

  lemma NobodyWants(s: State)
    ensures Wanting(s, Elements([])) == {} && Wanting(s, {}) == {}
  {
  }

  lemma FirstAndRest<T>(xs: seq<T>)
    requires xs != []
    ensures Elements(xs) == {xs[0]} + Elements(xs[1..])
  {
    assert xs == [xs[0]] + xs[1..];
  }

  lemma {:induction false} UnreachableAllAsks(c: Config, s: State, peers: seq<Pubkey>, r: Orders)
    requires forall p :: p in peers ==> r.to(p).None? && p !in s.dialPeers && p !in s.workers
    ensures Asked(c, s, UnreachableAll(s, peers), Elements(peers), r)
    decreases |peers|
  {
    hide Asked;
    if peers == [] {
      AskNobody(c, s, r);
      assert Elements(peers) == {};
    } else {
      var p := peers[0];
      var u := DropQueued(s, p, RemotePeerUnreachable);
      AskWithoutAddress(c, s, p, r);
      UnreachableAllAsks(c, u, peers[1..], r);
      FirstAndRest(peers);
      AskedTrans(c, s, u, UnreachableAll(u, peers[1..]), {p}, Elements(peers[1..]), r);
    }
  }

  /** A failed attempt counts as long as the peer stays where it was. */
  ghost function NextNumber(dial: Dial, ans: Answers, p: Pubkey): nat {
    if ans.dest(p) == Some(dial.addr) then dial.attempt + 1 else 1
  }

  /** What the peers of a failed attempt are asked for with. */
  ghost function RetryOrders(dial: Dial, ans: Answers): Orders {
    Orders(p => if ans.dest(p).None? then None else ans.again(p),
           p => NextNumber(dial, ans, p),
           p => ans.stake(p))
  }

  lemma {:induction false} RetryPeerAsks(c: Config, s: State, p: Pubkey, dial: Dial, ans: Answers)
    requires Inv(c, s) && p !in s.dialPeers && p !in s.workers
    ensures Asked(c, s, RetryPeer(c, s, p, dial, ans), {p}, RetryOrders(dial, ans))
  {
    hide Asked, InvExcept, SpawnConnecting, DropQueued;
    var r := RetryOrders(dial, ans);
    assert Wanting(s, {p}) == {p};
    if ans.dest(p).None? {
      AskWithoutAddress(c, s, p, r);
    } else {
      SpawnAsks(c, s, p, RetryAttempt(dial, ans.dest(p).value), ans.again(p), ans.stake(p), r);
    }
  }

  lemma {:induction false} RetryAllAsks(c: Config, s: State, peers: seq<Pubkey>, dial: Dial, ans: Answers)
    requires Inv(c, s) && 1 <= dial.attempt < c.maxConnectionAttempts && NoDuplicates(peers)
    requires forall p :: p in peers ==> p !in s.dialPeers && p !in s.workers
    ensures Asked(c, s, RetryAll(c, s, peers, dial, ans), Elements(peers), RetryOrders(dial, ans))
    decreases |peers|
  {
    hide Asked, InvExcept, RetryPeer, RetryOrders;
    var r := RetryOrders(dial, ans);
    if peers == [] {
      AskNobody(c, s, r);
      assert Elements(peers) == {};
    } else {
      var p := peers[0];
      var u := RetryPeer(c, s, p, dial, ans);
      RetryPeerAsks(c, s, p, dial, ans);
      RetryPeerKeeps(c, s, p, dial, ans);
      DistinctRest(peers);
      forall q | q in peers[1..] ensures q !in u.dialPeers && q !in u.workers {
        OthersStill(c, s, u, {p}, r, q);
      }
      RetryAllAsks(c, u, peers[1..], dial, ans);
      FirstAndRest(peers);
      AskedTrans(c, s, u, RetryAll(c, u, peers[1..], dial, ans), {p}, Elements(peers[1..]), r);
    }
  }

  lemma OthersStill(c: Config, s: State, u: State, peers: set<Pubkey>, r: Orders, q: Pubkey)
    requires Asked(c, s, u, peers, r) && q !in peers
    ensures Still(s, u, q)
  {
  }

  /** All peers of a list of attempts. */
  ghost function AllPeers(dials: seq<Dial>): set<Pubkey> {
    if dials == [] then {} else Elements(dials[0].peers) + AllPeers(dials[1..])
  }

  lemma {:induction false} RedialAsks(c: Config, s: State, dials: seq<Dial>, ans: Answers, r: Orders)
    requires Inv(c, s) && forall i :: 0 <= i < |dials| ==> 1 <= dials[i].attempt <= Max(1, c.maxConnectionAttempts)
    requires forall i, p :: 0 <= i < |dials| && p in dials[i].peers ==>
               r.to(p) == ans.dest(p) && r.attempt(p) == dials[i].attempt && r.stake(p) == ans.stake(p)
    ensures Asked(c, s, Redial(c, s, dials, ans), Wanting(s, AllPeers(dials)), r)
    decreases |dials|
  {
    hide Asked, InvExcept, SpawnAll, Wanting;
    if dials == [] {
      AskNobody(c, s, r);
      NobodyWants(s);
    } else {
      var d := dials[0];
      var u := SpawnAll(c, s, d.peers, d.attempt, ans);
      SpawnAllAsks(c, s, d.peers, d.attempt, ans, r);
      SpawnAllKeeps(c, s, d.peers, d.attempt, ans);
      RedialAsks(c, u, dials[1..], ans, r);
      WantingLater(c, s, u, Elements(d.peers), AllPeers(dials[1..]), r);
      AskedTrans(c, s, u, Redial(c, u, dials[1..], ans), Wanting(s, Elements(d.peers)), Wanting(u, AllPeers(dials[1..])), r);
    }
  }

  lemma {:induction false} InstallAllAsks(c: Config, s: State, peers: seq<Pubkey>, a: SocketAddr, ans: Answers, r: Orders)
    requires NoDuplicates(peers) && a in s.conns && !PendingAt(s, a)
    requires TasksBelow(s) && forall p :: p in peers ==> p !in s.dialPeers && p !in s.workers
    requires forall p :: p in peers ==> r.to(p) == Some(a) && r.stake(p) == ans.stake(p)
    ensures Asked(c, s, InstallAll(s, peers, a, ans), Elements(peers), r)
    decreases |peers|
  {
    hide Asked, InstallWorker, PendingAt;
    if peers == [] {
      AskNobody(c, s, r);
      assert Elements(peers) == {};
    } else {
      var p := peers[0];
      var u := InstallWorker(s, p, a, ans.stake(p));
      AskInstalls(c, s, p, a, r);
      InstallBelow(s, p, a, ans.stake(p));
      DistinctRest(peers);
      forall q | q in peers[1..] ensures q !in u.dialPeers && q !in u.workers {
        OthersStill(c, s, u, {p}, r, q);
      }
      InstallAllAsks(c, u, peers[1..], a, ans, r);
      FirstAndRest(peers);
      AskedTrans(c, s, u, InstallAll(u, peers[1..], a, ans), {p}, Elements(peers[1..]), r);
    }
  }

  ghost predicate TasksBelow(s: State) {
    (forall id :: id in s.tasks ==> id < s.nextTask) && (forall i :: i in s.dials ==> i < s.nextTask)
  }

  lemma InstallBelow(s: State, p: Pubkey, a: SocketAddr, stake: nat)
    requires TasksBelow(s) && p !in s.workers && a in s.conns && !PendingAt(s, a)
    ensures var u := InstallWorker(s, p, a, stake);
            TasksBelow(u) && a in u.conns && !PendingAt(u, a)
  {
  }
}
