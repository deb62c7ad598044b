/** The set of connections that have no worker, ordered by the time they became unused.

    Two indexes are kept in step: a priority queue from insertion time to the connections
    inserted then, and a reverse index from address to (time, version) pairs. Together they
    refine one finite map from a connection to the time it was first inserted. */
module OrphanConnections {
  import opened Types
  import opened Collections

  function VersionPosition(versions: seq<(Instant, nat)>, version: nat): (r: Option<nat>)
    ensures r.None? ==> forall i :: 0 <= i < |versions| ==> versions[i].1 != version
    ensures r.Some? ==> r.value < |versions| && versions[r.value].1 == version
  {
    if versions == [] then None
    else if versions[0].1 == version then Some(0)
    else match VersionPosition(versions[1..], version)
         case None => None
         case Some(i) => Some(i + 1)
  }

  function InfoPosition(infos: seq<ConnectionId>, info: ConnectionId): (r: Option<nat>)
    ensures r.None? ==> info !in infos
    ensures r.Some? ==> r.value < |infos| && infos[r.value] == info
  {
    if infos == [] then None
    else if infos[0] == info then Some(0)
    else match InfoPosition(infos[1..], info)
         case None => None
         case Some(i) => Some(i + 1)
  }

  /** Drops the pair (at, version) wherever it occurs and keeps the rest in order. */
  function Retain(versions: seq<(Instant, nat)>, at: Instant, version: nat): (r: seq<(Instant, nat)>)
    ensures forall x :: x in r <==> x in versions && x != (at, version)
    ensures NoDuplicates(versions) ==> NoDuplicates(r)
  {
    if versions == [] then []
    else
      var rest := Retain(versions[1..], at, version);
      assert forall x :: x in versions <==> x == versions[0] || x in versions[1..];
      assert NoDuplicates(versions) ==> versions[0] !in versions[1..] && NoDuplicates(versions[1..]);
      if versions[0] == (at, version) then rest else [versions[0]] + rest
  }

  /** A bucket of the priority queue: connections of `m` inserted at `t`, each listed once. */
  ghost predicate Bucket(t: Instant, infos: seq<ConnectionId>, m: map<ConnectionId, Instant>) {
    && infos != []
    && NoDuplicates(infos)
    && (forall k :: k in infos ==> k in m && m[k] == t)
  }

  /** The priority queue consists of buckets and misses no connection of `m`. */
  ghost predicate QueueAgrees(queue: map<Instant, seq<ConnectionId>>, m: map<ConnectionId, Instant>) {
    && (forall t {:trigger Bucket(t, queue[t], m)} :: t in queue ==> Bucket(t, queue[t], m))
    && (forall k {:trigger Queued(k, queue, m)} :: k in m ==> Queued(k, queue, m))
  }

  ghost predicate Queued(k: ConnectionId, queue: map<Instant, seq<ConnectionId>>, m: map<ConnectionId, Instant>) {
    k in m && m[k] in queue && k in queue[m[k]]
  }

  /** The versions listed for an address: connections of `m` with their time, each listed once. */
  ghost predicate VersionList(a: SocketAddr, versions: seq<(Instant, nat)>, m: map<ConnectionId, Instant>) {
    && versions != []
    && NoDuplicates(versions)
    && (forall p :: p in versions ==> ConnectionId(a, p.1) in m && m[ConnectionId(a, p.1)] == p.0)
  }

  /** The reverse index consists of version lists and misses no connection of `m`. */
  ghost predicate IndexAgrees(index: map<SocketAddr, seq<(Instant, nat)>>, m: map<ConnectionId, Instant>) {
    && (forall a {:trigger VersionList(a, index[a], m)} :: a in index ==> VersionList(a, index[a], m))
    && (forall k {:trigger Indexed(k, index, m)} :: k in m ==> Indexed(k, index, m))
  }

  ghost predicate Indexed(k: ConnectionId, index: map<SocketAddr, seq<(Instant, nat)>>, m: map<ConnectionId, Instant>) {
    k in m && k.addr in index && (m[k], k.version) in index[k.addr]
  }

  lemma QueueInsert(queue: map<Instant, seq<ConnectionId>>, m: map<ConnectionId, Instant>, info: ConnectionId, now: Instant)
    requires QueueAgrees(queue, m) && info !in m
    ensures QueueAgrees(Push(queue, now, info), m[info := now])
  {
    var queue', m' := Push(queue, now, info), m[info := now];
    var old' := if now in queue then queue[now] else [];
    assert now in queue ==> Bucket(now, queue[now], m);
    assert forall k :: k in queue'[now] <==> k == info || k in old';
    forall t | t in queue' ensures Bucket(t, queue'[t], m') {
      assert t in queue ==> Bucket(t, queue[t], m);
    }
    forall k | k in m' ensures Queued(k, queue', m') {
      assert k in m ==> Queued(k, queue, m);
    }
  }

  lemma IndexInsert(index: map<SocketAddr, seq<(Instant, nat)>>, m: map<ConnectionId, Instant>, info: ConnectionId, now: Instant)
    requires IndexAgrees(index, m) && info !in m
    ensures IndexAgrees(Push(index, info.addr, (now, info.version)), m[info := now])
  {
    var index', m' := Push(index, info.addr, (now, info.version)), m[info := now];
    var old' := if info.addr in index then index[info.addr] else [];
    assert info.addr in index ==> VersionList(info.addr, index[info.addr], m);
    assert forall p :: p in old' ==> p.1 != info.version;
    assert forall p :: p in index'[info.addr] <==> p == (now, info.version) || p in old';
    forall a | a in index' ensures VersionList(a, index'[a], m') {
      assert a in index ==> VersionList(a, index[a], m);
    }
    forall k | k in m' ensures Indexed(k, index', m') {
      assert k in m ==> Indexed(k, index, m);
    }
  }

  lemma QueueRemove(queue: map<Instant, seq<ConnectionId>>, m: map<ConnectionId, Instant>, info: ConnectionId, kept: seq<ConnectionId>)
    requires QueueAgrees(queue, m) && Queued(info, queue, m)
    requires NoDuplicates(kept) && forall k :: k in kept <==> k in queue[m[info]] && k != info
    ensures QueueAgrees(Keep(queue, m[info], kept), m - {info})
  {
    var queue', m' := Keep(queue, m[info], kept), m - {info};
    forall t | t in queue' ensures Bucket(t, queue'[t], m') {
      assert Bucket(t, queue[t], m);
    }
    forall k | k in m' ensures Queued(k, queue', m') {
      assert Queued(k, queue, m);
    }
  }

  lemma IndexRemove(index: map<SocketAddr, seq<(Instant, nat)>>, m: map<ConnectionId, Instant>, info: ConnectionId, kept: seq<(Instant, nat)>)
    requires IndexAgrees(index, m) && Indexed(info, index, m)
    requires NoDuplicates(kept) && forall p :: p in kept <==> p in index[info.addr] && p != (m[info], info.version)
    ensures IndexAgrees(Keep(index, info.addr, kept), m - {info})
  {
    var index', m' := Keep(index, info.addr, kept), m - {info};
    forall a | a in index' ensures VersionList(a, index'[a], m') {
      assert VersionList(a, index[a], m);
    }
    forall k | k in m' ensures Indexed(k, index', m') {
      assert Indexed(k, index, m);
      if k.addr == info.addr {
        assert (m[k], k.version) in kept;
      }
    }
  }

  /** Taking out a whole bucket takes out the connections of one insertion time. */
  lemma QueuePop(queue: map<Instant, seq<ConnectionId>>, m: map<ConnectionId, Instant>, at: Instant)
    requires QueueAgrees(queue, m) && at in queue
    ensures QueueAgrees(queue - {at}, m - Elements(queue[at]))
  {
    assert Bucket(at, queue[at], m);
    var queue', m' := queue - {at}, m - Elements(queue[at]);
    forall t | t in queue' ensures Bucket(t, queue'[t], m') {
      assert Bucket(t, queue[t], m);
    }
    forall k | k in m' ensures Queued(k, queue', m') {
      assert Queued(k, queue, m);
    }
  }

  lemma QueueEmpty(queue: map<Instant, seq<ConnectionId>>, m: map<ConnectionId, Instant>)
    requires QueueAgrees(queue, m)
    ensures queue == map[] <==> m == map[]
  {
    if m != map[] {
      var k :| k in m;
      assert Queued(k, queue, m);
    }
    if queue != map[] {
      var t :| t in queue;
      assert Bucket(t, queue[t], m);
      assert queue[t][0] in queue[t];
    }
  }

  /** `infos` are the connections of `m` with the least time: they tie, and every other one is later. */
  ghost predicate OldestOf(infos: seq<ConnectionId>, m: map<ConnectionId, Instant>) {
    && (forall k :: k in infos ==> k in m)
    && (forall j, k :: j in infos && k in m ==> if k in infos then m[j] == m[k] else m[j] < m[k])
  }

  ghost predicate IsOldest(t: Instant, m: map<ConnectionId, Instant>) {
    && (exists k :: k in m && m[k] == t)
    && (forall k :: k in m ==> t <= m[k])
  }

  class OrphanConnectionSet {
    var prioQueue: map<Instant, seq<ConnectionId>>
    var revIndex: map<SocketAddr, seq<(Instant, nat)>>
    var currLen: nat
    /** What the set means: each unused connection with the time of its first insertion. */
    ghost var Contents: map<ConnectionId, Instant>

    ghost predicate Valid()
      reads this
    {
      && QueueAgrees(prioQueue, Contents)
      && IndexAgrees(revIndex, Contents)
      && currLen == |Contents|
    }

    constructor ()
      ensures Valid() && Contents == map[]
    {
      prioQueue, revIndex, currLen, Contents := map[], map[], 0, map[];
    }

    method Clear()
      modifies this
      ensures Valid() && Contents == map[]
    {
      prioQueue, revIndex, currLen, Contents := map[], map[], 0, map[];
    }

    /** Idempotent: a connection that is already present keeps its first insertion time. */
    method Insert(info: ConnectionId, now: Instant)
      requires Valid()
      modifies this
      ensures Valid()
      ensures Contents == if info in old(Contents) then old(Contents) else old(Contents)[info := now]
    {
      if info.addr in revIndex {
        var versionSet := revIndex[info.addr];
        assert VersionList(info.addr, versionSet, Contents);
        assert info in Contents ==> Indexed(info, revIndex, Contents);
        if exists i :: 0 <= i < |versionSet| && versionSet[i].1 == info.version {
          ghost var i :| 0 <= i < |versionSet| && versionSet[i].1 == info.version;
          assert versionSet[i] in versionSet;
          return;
        }
      }
      assert info in Contents ==> Indexed(info, revIndex, Contents);
      QueueInsert(prioQueue, Contents, info, now);
      IndexInsert(revIndex, Contents, info, now);
      revIndex := Push(revIndex, info.addr, (now, info.version));
      prioQueue := Push(prioQueue, now, info);
      currLen := currLen + 1;
      Contents := Contents[info := now];
    }

    method Remove(addr: SocketAddr, version: nat) returns (r: Option<ConnectionId>)
      requires Valid()
      modifies this
      ensures Valid()
      ensures Contents == old(Contents) - {ConnectionId(addr, version)}
      ensures r == if ConnectionId(addr, version) in old(Contents) then Some(ConnectionId(addr, version)) else None
    {
      var key := ConnectionId(addr, version);
      assert key in Contents ==> Indexed(key, revIndex, Contents) && Queued(key, prioQueue, Contents);
      if addr !in revIndex {
        assert key !in Contents;
        return None;
      }
      var versionSet := revIndex[addr];
      assert VersionList(addr, versionSet, Contents);
      var pos := VersionPosition(versionSet, version);
      if pos.None? {
        return None;
      }
      var insertedAt := versionSet[pos.value].0;
      assert versionSet[pos.value] in versionSet;
      assert key in Contents && Contents[key] == insertedAt;
      var versions := RemoveAt(versionSet, pos.value);
      var infos := prioQueue[insertedAt];
      assert Bucket(insertedAt, infos, Contents);
      var infoPos := InfoPosition(infos, key);
      var kept := RemoveAt(infos, infoPos.value);
      QueueRemove(prioQueue, Contents, key, kept);
      IndexRemove(revIndex, Contents, key, versions);
      revIndex := Keep(revIndex, addr, versions);
      prioQueue := Keep(prioQueue, insertedAt, kept);
      assert (Contents - {key}).Keys == Contents.Keys - {key};
      currLen := currLen - 1;
      Contents := Contents - {key};
      r := Some(key);
    }

    method Oldest() returns (r: Option<Instant>)
      requires Valid()
      ensures r.None? <==> Contents == map[]
      ensures r.Some? ==> IsOldest(r.value, Contents)
    {
      QueueEmpty(prioQueue, Contents);
      if prioQueue == map[] {
        return None;
      }
      var t := LeastKey(prioQueue);
      assert Bucket(t, prioQueue[t], Contents);
      assert prioQueue[t][0] in prioQueue[t];
      assert forall k :: k in Contents ==> Queued(k, prioQueue, Contents);
      r := Some(t);
    }

    /** Takes out exactly the connections with the least insertion time. */
    method Pop() returns (r: Option<seq<ConnectionId>>)
      requires Valid()
      modifies this
      ensures Valid()
      ensures r.None? <==> old(Contents) == map[]
      ensures r.None? ==> Contents == old(Contents)
      ensures r.Some? ==> r.value != [] && NoDuplicates(r.value)
      ensures r.Some? ==> OldestOf(r.value, old(Contents))
      ensures r.Some? ==> Contents == old(Contents) - Elements(r.value)
    {
      QueueEmpty(prioQueue, Contents);
      if prioQueue == map[] {
        return None;
      }
      var insertedAt := LeastKey(prioQueue);
      var infos := prioQueue[insertedAt];
      ghost var after := Contents - Elements(infos);
      PopOldest(prioQueue, Contents, insertedAt);
      revIndex := DropAllFromIndex(revIndex, Contents, infos, insertedAt);
      prioQueue := prioQueue - {insertedAt};
      currLen := currLen - |infos|;
      Contents := after;
      r := Some(infos);
    }
  }

  /** The loop of `Pop`: forgets each popped connection in the reverse index. */
  method DropAllFromIndex(index: map<SocketAddr, seq<(Instant, nat)>>, ghost m: map<ConnectionId, Instant>, infos: seq<ConnectionId>, at: Instant)
    returns (r: map<SocketAddr, seq<(Instant, nat)>>)
    requires Bucket(at, infos, m) && IndexAgrees(index, m)
    ensures IndexAgrees(r, m - Elements(infos))
  {
    r := index;
    var i := 0;
    assert m - Elements(infos[..0]) == m;
    while i < |infos|
      invariant 0 <= i <= |infos|
      invariant IndexAgrees(r, m - Elements(infos[..i]))
    {
      r := DropFromIndex(r, m, infos, i, at);
      i := i + 1;
    }
    assert infos[..|infos|] == infos;
  }

  /** One turn of the loop of `DropAllFromIndex`: forgets the pair of `infos[i]`.
      Its address is always in the index, so the lookup cannot miss. */
  function DropFromIndex(index: map<SocketAddr, seq<(Instant, nat)>>, ghost m: map<ConnectionId, Instant>, infos: seq<ConnectionId>, i: nat, at: Instant)
    : (r: map<SocketAddr, seq<(Instant, nat)>>)
    requires i < |infos| && Bucket(at, infos, m)
    requires IndexAgrees(index, m - Elements(infos[..i]))
    ensures IndexAgrees(r, m - Elements(infos[..i + 1]))
  {
    var info := infos[i];
    assert infos[..i + 1] == infos[..i] + [info];
    assert Elements(infos[..i + 1]) == Elements(infos[..i]) + {info};
    ghost var now := m - Elements(infos[..i]);
    assert info in infos && info !in infos[..i];
    assert m - Elements(infos[..i + 1]) == now - {info};
    assert Indexed(info, index, now) && VersionList(info.addr, index[info.addr], now);
    var rest := Retain(index[info.addr], at, info.version);
    IndexRemove(index, now, info, rest);
    Keep(index, info.addr, rest)
  }

  lemma PopOldest(queue: map<Instant, seq<ConnectionId>>, m: map<ConnectionId, Instant>, at: Instant)
    requires QueueAgrees(queue, m)
    requires at in queue && forall u :: u in queue ==> at <= u
    ensures Bucket(at, queue[at], m) && OldestOf(queue[at], m)
    ensures QueueAgrees(queue - {at}, m - Elements(queue[at]))
    ensures |m - Elements(queue[at])| == |m| - |queue[at]|
  {
    assert Bucket(at, queue[at], m);
    forall k | k in m ensures at <= m[k] && (m[k] == at ==> k in queue[at]) {
      assert Queued(k, queue, m);
    }
    QueuePop(queue, m, at);
    PopCount(m, queue[at], at);
  }

  lemma PopCount(m: map<ConnectionId, Instant>, infos: seq<ConnectionId>, at: Instant)
    requires Bucket(at, infos, m)
    ensures |m - Elements(infos)| == |m| - |infos|
  {
    CountElements(infos);
    assert Elements(infos) <= m.Keys;
    assert (m - Elements(infos)).Keys == m.Keys - Elements(infos);
  }
}
