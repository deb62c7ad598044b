/** The stake-based eviction strategy, and what one eviction round with it does to the driver.

    The strategy walks the connections in ascending order of total stake. The order among equals
    and the order of the peers of one connection come from hash maps: they are parameters. */
module EvictionStrategy {
  import opened Types
  import opened Bags
  import opened StakedSorted
  import opened DriverState
  import opened DriverInvariant
  import opened DriverRuns
  import opened DriverTheorems

  /** What the strategy looks at: the connections, the address index in the order its iterator
      gives, the peers of a connection in the order its map gives, and the last uses. */
  datatype Context = Context(
    conns: map<SocketAddr, Connection>,
    order: seq<SocketAddr>,
    list: SocketAddr -> seq<Pubkey>,
    usage: map<Pubkey, Instant>,
    evicting: set<Pubkey>,
    now: Instant,
    grace: nat)

  ghost predicate Faithful(x: Context, addrStakes: map<SocketAddr, nat>) {
    && AscendingListing(x.order, addrStakes)
    && (forall a :: a in x.conns ==> Elements(x.list(a)) == x.conns[a].peers.Keys)
  }

  /** No peer of the connection is being evicted, or none that was used a moment ago either. */
  predicate Spared(x: Context, a: SocketAddr) {
    a in x.conns && forall p :: p in x.conns[a].peers ==> p !in x.evicting
  }

  predicate Idle(x: Context, a: SocketAddr) {
    Spared(x, a) && forall p :: p in x.conns[a].peers && p in x.usage ==> Saturating(x.now - x.usage[p]) >= x.grace
  }

  function Filter(s: seq<SocketAddr>, keep: SocketAddr -> bool): seq<SocketAddr> {
    if s == [] then []
    else (if keep(s[0]) then [s[0]] else []) + Filter(s[1..], keep)
  }

  /** The first `n` connections, by ascending stake, that satisfy `keep`. */
  function Chosen(x: Context, keep: SocketAddr -> bool, n: nat): seq<SocketAddr> {
    var all := Filter(x.order, keep);
    all[..Min(n, |all|)]
  }

  function PeersOf(groups: seq<SocketAddr>, list: SocketAddr -> seq<Pubkey>): seq<Pubkey> {
    if groups == [] then [] else list(groups[0]) + PeersOf(groups[1..], list)
  }

  /** The connections to evict: idle ones, or, if that gives no peer at all, any that are not
      being evicted already. */
  function PlannedGroups(x: Context, n: nat): seq<SocketAddr> {
    var idle := Chosen(x, a => Idle(x, a), n);
    if PeersOf(idle, x.list) != [] then idle else Chosen(x, a => Spared(x, a), n)
  }

  /** The peers the strategy proposes to evict. */
  function PlanEviction(x: Context, n: nat): seq<Pubkey> {
    PeersOf(PlannedGroups(x, n), x.list)
  }

  // ---------------------------------------------------------------- the plan

  ghost function StakeAt(conns: map<SocketAddr, Connection>, a: SocketAddr): nat {
    if a in conns then TotalStake(conns[a].peers) else 0
  }

  /** `groups` are connections that satisfy `keep`, at most `n`, in ascending order of total
      stake; one that satisfies `keep` is left out only if there are `n` of no greater stake. */
  ghost predicate LowestFirst(groups: seq<SocketAddr>, conns: map<SocketAddr, Connection>, keep: SocketAddr -> bool, n: nat) {
    && NoDuplicates(groups) && |groups| <= n
    && (forall a :: a in groups ==> keep(a))
    && (forall i, j :: 0 <= i < j < |groups| ==> StakeAt(conns, groups[i]) <= StakeAt(conns, groups[j]))
    && (forall b :: b in conns && keep(b) && b !in groups ==>
          |groups| == n && forall a :: a in groups ==> StakeAt(conns, a) <= StakeAt(conns, b))
  }

  ghost predicate Ascending(s: seq<SocketAddr>, conns: map<SocketAddr, Connection>) {
    forall i, j :: 0 <= i < j < |s| ==> StakeAt(conns, s[i]) <= StakeAt(conns, s[j])
  }

  lemma {:induction false} FilterKeepsOrder(s: seq<SocketAddr>, keep: SocketAddr -> bool, conns: map<SocketAddr, Connection>)
    requires NoDuplicates(s) && Ascending(s, conns)
    ensures var r := Filter(s, keep);
            && NoDuplicates(r) && Ascending(r, conns)
            && (forall a :: a in r <==> a in s && keep(a))
  {
    if s == [] {
    } else {
      hide Ascending;
      TailKeepsOrder(s, conns);
      FilterKeepsOrder(s[1..], keep, conns);
      if keep(s[0]) {
        FrontKeepsOrder(s[0], Filter(s[1..], keep), conns);
      }
    }
  }

  lemma TailKeepsOrder(s: seq<SocketAddr>, conns: map<SocketAddr, Connection>)
    requires s != [] && NoDuplicates(s) && Ascending(s, conns)
    ensures NoDuplicates(s[1..]) && Ascending(s[1..], conns)
    ensures forall a :: a in s[1..] ==> a != s[0] && StakeAt(conns, s[0]) <= StakeAt(conns, a)
  {
    hide StakeAt;
  }

  lemma FrontKeepsOrder(a: SocketAddr, r: seq<SocketAddr>, conns: map<SocketAddr, Connection>)
    requires NoDuplicates(r) && Ascending(r, conns)
    requires forall b :: b in r ==> b != a && StakeAt(conns, a) <= StakeAt(conns, b)
    ensures NoDuplicates([a] + r) && Ascending([a] + r, conns)
  {
    hide StakeAt;
    assert forall i :: 0 <= i < |r| ==> r[i] in r;
  }

  /** The order of the index is the order of the connections' total stakes. */
  lemma IndexOrder(x: Context, addrStakes: map<SocketAddr, nat>)
    requires Faithful(x, addrStakes) && AddrStakesOk(addrStakes, x.conns, {})
    ensures NoDuplicates(x.order) && Ascending(x.order, x.conns)
    ensures forall a :: a in x.conns ==> a in x.order
  {
    forall a | a in addrStakes ensures StakeAt(x.conns, a) == addrStakes[a] {
      if a in x.conns {
        assert AddrStaked(a, addrStakes, x.conns);
      } else {
        assert StaleStake(a, addrStakes);
      }
    }
    forall a | a in x.conns ensures a in x.order {
      assert AddrStaked(a, addrStakes, x.conns);
    }
  }

  lemma PrefixLowestFirst(all: seq<SocketAddr>, conns: map<SocketAddr, Connection>, keep: SocketAddr -> bool, n: nat)
    requires NoDuplicates(all) && Ascending(all, conns)
    requires forall a :: a in all ==> keep(a)
    requires forall a :: a in conns && keep(a) ==> a in all
    ensures LowestFirst(all[..Min(n, |all|)], conns, keep, n)
  {
    var groups := all[..Min(n, |all|)];
    assert forall a :: a in groups ==> a in all;
    assert forall i :: 0 <= i < |groups| ==> all[i] in groups;
    forall b | b in conns && keep(b) && b !in groups
      ensures |groups| == n && forall a :: a in groups ==> StakeAt(conns, a) <= StakeAt(conns, b)
    {
      var j :| 0 <= j < |all| && all[j] == b;
    }
  }

  lemma ChosenLowestFirst(x: Context, addrStakes: map<SocketAddr, nat>, keep: SocketAddr -> bool, n: nat)
    requires Faithful(x, addrStakes) && AddrStakesOk(addrStakes, x.conns, {})
    ensures LowestFirst(Chosen(x, keep, n), x.conns, keep, n)
  {
    hide Faithful, AddrStakesOk, LowestFirst, Ascending;
    IndexOrder(x, addrStakes);
    FilterKeepsOrder(x.order, keep, x.conns);
    PrefixLowestFirst(Filter(x.order, keep), x.conns, keep, n);
  }

  lemma {:induction false} PeersOfGroups(groups: seq<SocketAddr>, list: SocketAddr -> seq<Pubkey>, p: Pubkey)
    ensures p in PeersOf(groups, list) <==> exists i :: 0 <= i < |groups| && p in list(groups[i])
  {
    if groups != [] {
      PeersOfGroups(groups[1..], list, p);
      if p in PeersOf(groups[1..], list) {
        var i :| 0 <= i < |groups[1..]| && p in list(groups[1..][i]);
        assert p in list(groups[i + 1]);
      }
      if i :| 0 <= i < |groups| && p in list(groups[i]) {
        assert i > 0 ==> groups[1..][i - 1] == groups[i];
      }
    }
  }

  /** The plan of the strategy. It takes whole connections, lowest total stake first, at most `n`
      of them and never one with a peer that is already being evicted. Recently used connections
      are spared, unless the idle ones chosen have no peer to evict. */
  lemma PlanIsLowestFirst(x: Context, addrStakes: map<SocketAddr, nat>, n: nat, p: Pubkey)
    requires Faithful(x, addrStakes) && AddrStakesOk(addrStakes, x.conns, {})
    ensures var idle, groups := Chosen(x, a => Idle(x, a), n), PlannedGroups(x, n);
            && (PeersOf(idle, x.list) != [] ==> groups == idle && LowestFirst(groups, x.conns, a => Idle(x, a), n))
            && (PeersOf(idle, x.list) == [] ==> LowestFirst(groups, x.conns, a => Spared(x, a), n))
            && (forall a :: a in groups ==> Spared(x, a))
            && (p in PlanEviction(x, n) <==> exists a :: a in groups && p in x.conns[a].peers)
            && |groups| <= n
  {
    hide AddrStakesOk, Chosen;
    var groups := PlannedGroups(x, n);
    ChosenLowestFirst(x, addrStakes, a => Idle(x, a), n);
    ChosenLowestFirst(x, addrStakes, a => Spared(x, a), n);
    PlanPeers(x, n, p);
  }

  lemma PlanPeers(x: Context, n: nat, p: Pubkey)
    requires forall a :: a in x.conns ==> Elements(x.list(a)) == x.conns[a].peers.Keys
    requires forall a :: a in PlannedGroups(x, n) ==> a in x.conns
    ensures p in PlanEviction(x, n) <==> exists a :: a in PlannedGroups(x, n) && p in x.conns[a].peers
  {
    hide PlannedGroups;
    var groups := PlannedGroups(x, n);
    PeersOfGroups(groups, x.list, p);
    if p in PlanEviction(x, n) {
      var i :| 0 <= i < |groups| && p in x.list(groups[i]);
      assert groups[i] in groups && p in Elements(x.list(groups[i]));
    }
    if a :| a in groups && p in x.conns[a].peers {
      assert p in Elements(x.list(a));
      var i :| 0 <= i < |groups| && groups[i] == a;
    }
  }

  /** No peer of the connection is being evicted, and the last use of each that was used lies at least
      the grace period back. */
  ghost predicate LongIdle(x: Context, a: SocketAddr) {
    && a in x.conns && (forall p :: p in x.conns[a].peers ==> p !in x.evicting)
    && forall p :: p in x.conns[a].peers && p in x.usage ==> x.grace == 0 || x.usage[p] + x.grace <= x.now
  }

  /** The first `n` long idle connections, in ascending order of stake, have no peers. */
  ghost predicate NobodyIdle(x: Context, first: seq<SocketAddr>, n: nat) {
    && LowestFirst(first, x.conns, a => LongIdle(x, a), n)
    && forall a :: a in first && a in x.conns ==> x.conns[a].peers == map[]
  }

  /** Who is planned, by the clock: a planned connection has no peer that is being evicted, and either
      all planned connections are long idle, or no long idle connection that is chosen first has a
      peer at all. */
  lemma {:induction false} GraceIsKept(x: Context, addrStakes: map<SocketAddr, nat>, n: nat)
    requires Faithful(x, addrStakes) && AddrStakesOk(addrStakes, x.conns, {})
    ensures forall a, p :: a in PlannedGroups(x, n) ==> a in x.conns && (p in x.conns[a].peers ==> p !in x.evicting)
    ensures || (forall a :: a in PlannedGroups(x, n) ==> LongIdle(x, a))
            || (exists first :: NobodyIdle(x, first, n))
  {
    hide AddrStakesOk, Chosen;
    var idle := Chosen(x, a => Idle(x, a), n);
    PlanIsLowestFirst(x, addrStakes, n, Pubkey(0));
    ChosenLowestFirst(x, addrStakes, a => Idle(x, a), n);
    IdleIsLongIdle(x);
    if PeersOf(idle, x.list) == [] {
      assert LowestFirst(idle, x.conns, a => LongIdle(x, a), n);
      forall a | a in idle && a in x.conns ensures x.conns[a].peers == map[] {
        var i :| 0 <= i < |idle| && idle[i] == a;
        NoPeersListed(idle, x.list, i);
        assert Elements(x.list(a)) == {};
      }
      assert NobodyIdle(x, idle, n);
    }
  }

  lemma {:induction false} NoPeersListed(groups: seq<SocketAddr>, list: SocketAddr -> seq<Pubkey>, i: nat)
    requires PeersOf(groups, list) == [] && i < |groups|
    ensures list(groups[i]) == []
    decreases |groups|
  {
    if i > 0 {
      NoPeersListed(groups[1..], list, i - 1);
    }
  }

  lemma IdleIsLongIdle(x: Context)
    ensures forall a :: Idle(x, a) <==> LongIdle(x, a)
  {
  }

  // ---------------------------------------------------------------- one eviction round

  ghost function IdsAt(conns: map<SocketAddr, Connection>, groups: seq<SocketAddr>): set<ConnectionId> {
    set a | a in groups && a in conns :: ConnectionId(a, conns[a].version)
  }

  lemma {:induction false} CountIds(conns: map<SocketAddr, Connection>, groups: seq<SocketAddr>)
    ensures |IdsAt(conns, groups)| <= |groups|
  {
    if groups == [] {
      assert IdsAt(conns, groups) == {};
    } else {
      CountIds(conns, groups[1..]);
      var g := groups[0];
      assert forall a :: a in groups <==> a == g || a in groups[1..];
      if g in conns {
        assert IdsAt(conns, groups) == IdsAt(conns, groups[1..]) + {ConnectionId(g, conns[g].version)};
      } else {
        assert IdsAt(conns, groups) == IdsAt(conns, groups[1..]);
      }
    }
  }

  /** The peers of some connections pull in those connections and no others. */
  lemma TargetsAreGroups(c: Config, s: State, groups: seq<SocketAddr>, plan: set<Pubkey>)
    requires Inv(c, s)
    requires forall p :: p in plan ==> exists a :: a in groups && a in s.conns && p in s.conns[a].peers
    ensures Targets(s, plan) <= IdsAt(s.conns, groups) && |Targets(s, plan)| <= |groups|
  {
    forall e | e in Targets(s, plan) ensures e in IdsAt(s.conns, groups) {
      var p :| p in plan && p in s.workers && e == ConnectionId(s.workers[p].addr, s.workers[p].version);
      var a :| a in groups && a in s.conns && p in s.conns[a].peers;
      assert Served(p, s.workers, s.conns) && Staffed(a, s.workers, s.conns);
    }
    CountIds(s.conns, groups);
    Subsize(Targets(s, plan), IdsAt(s.conns, groups));
  }

  lemma {:induction false} Subsize<T>(a: set<T>, b: set<T>)
    requires a <= b
    ensures |a| <= |b|
  {
    if a != {} {
      var x :| x in a;
      Subsize(a - {x}, b - {x});
    }
  }

  lemma UnionSize(a: set<ConnectionId>, b: set<ConnectionId>)
    ensures |a + b| <= |a| + |b|
  {
    assert a + b == a + (b - a);
    Subsize(b - a, b);
  }

  /** One eviction round with the stake-based strategy never plans more than is needed: at the
      end there are at most as many pending evictions as before, or as there are waiters. The
      fallback to the least staked connection is included. */
  lemma {:induction false} RoundIsBounded(c: Config, s: State, x: Context, fallback: Option<SocketAddr>)
    requires At(c, s) && x.conns == s.conns && Faithful(x, s.addrStakes)
    ensures var plan := PlanEviction(x, EvictionsRequired(s));
            |DoEvictionIfRequired(s, plan, fallback).pending| <= Max(|s.pending|, |s.blocked|)
  {
    ReachableKeeps(c, s);
    var n := EvictionsRequired(s);
    var plan := PlanEviction(x, n);
    if n == 0 {
      NoRound(s, plan, fallback);
    } else if plan == [] && s.pending == {} {
      FallbackRound(c, s, fallback);
    } else {
      PlanRound(c, s, x, fallback);
    }
  }

  lemma NoRound(s: State, plan: seq<Pubkey>, fallback: Option<SocketAddr>)
    requires EvictionsRequired(s) == 0
    ensures DoEvictionIfRequired(s, plan, fallback) == s
  {
  }

  lemma FallbackRound(c: Config, s: State, fallback: Option<SocketAddr>)
    requires Inv(c, s) && EvictionsRequired(s) > 0 && s.pending == {}
    ensures |DoEvictionIfRequired(s, [], fallback).pending| <= 1
  {
    if fallback.Some? && fallback.value in s.conns {
      var peers := s.conns[fallback.value].peers.Keys;
      assert fallback.value in [fallback.value];
      TargetsAreGroups(c, s, [fallback.value], peers);
      assert s.pending + Targets(s, peers) == Targets(s, peers);
    }
  }

  lemma PlanRound(c: Config, s: State, x: Context, fallback: Option<SocketAddr>)
    requires Inv(c, s) && x.conns == s.conns && Faithful(x, s.addrStakes)
    requires var n := EvictionsRequired(s); n > 0 && (PlanEviction(x, n) != [] || s.pending != {})
    ensures |DoEvictionIfRequired(s, PlanEviction(x, EvictionsRequired(s)), fallback).pending| <= |s.blocked|
  {
    var n := EvictionsRequired(s);
    var plan, groups := PlanEviction(x, n), PlannedGroups(x, n);
    forall p | p in Elements(plan) ensures exists a :: a in groups && a in s.conns && p in s.conns[a].peers {
      PlanIsLowestFirst(x, s.addrStakes, n, p);
      var a :| a in groups && p in x.conns[a].peers;
      assert Spared(x, a);
    }
    PlanSize(x, s.addrStakes, n);
    TargetsAreGroups(c, s, groups, Elements(plan));
    UnionSize(s.pending, Targets(s, Elements(plan)));
  }

  lemma PlanSize(x: Context, addrStakes: map<SocketAddr, nat>, n: nat)
    requires Faithful(x, addrStakes) && AddrStakesOk(addrStakes, x.conns, {})
    ensures |PlannedGroups(x, n)| <= n
  {
  }
}
