/** The connections that are about to be closed, with a reference count per address. */
module ConnectionEvictions {
  import opened Types

  ghost function VersionsAt(evictions: set<ConnectionId>, addr: SocketAddr): set<ConnectionId> {
    set e | e in evictions && e.addr == addr
  }

  ghost predicate CountsAgree(evictions: set<ConnectionId>, addrs: set<SocketAddr>, counts: map<SocketAddr, nat>) {
    && counts.Keys == addrs
    && (forall e :: e in evictions ==> e.addr in addrs)
    && (forall a :: a in addrs ==> counts[a] > 0)
    && (forall a :: a in addrs ==> counts[a] == |VersionsAt(evictions, a)|)
  }

  lemma VersionsAfterInsert(evictions: set<ConnectionId>, e: ConnectionId)
    ensures forall a :: a != e.addr ==> VersionsAt(evictions + {e}, a) == VersionsAt(evictions, a)
    ensures e !in evictions ==> |VersionsAt(evictions + {e}, e.addr)| == |VersionsAt(evictions, e.addr)| + 1
  {
    assert VersionsAt(evictions + {e}, e.addr) == VersionsAt(evictions, e.addr) + {e};
    assert forall a :: a != e.addr ==> VersionsAt(evictions + {e}, a) == VersionsAt(evictions, a);
  }

  class ConnectionEvictionSet {
    var evictions: set<ConnectionId>
    var socketAddrSet: set<SocketAddr>
    var socketAddrRefcount: map<SocketAddr, nat>

    /** The count of an address is the number of its versions in the set, and only the
        addresses that have one are listed. */
    ghost predicate Valid()
      reads this
    {
      CountsAgree(evictions, socketAddrSet, socketAddrRefcount)
    }

    constructor ()
      ensures Valid() && evictions == {}
    {
      evictions, socketAddrSet, socketAddrRefcount := {}, {}, map[];
    }

    method Clear()
      modifies this
      ensures Valid() && evictions == {}
    {
      evictions, socketAddrSet, socketAddrRefcount := {}, {}, map[];
    }

    method Len() returns (n: nat)
      requires Valid()
      ensures n == |evictions|
    {
      n := |evictions|;
    }

    method Insert(eviction: ConnectionId) returns (inserted: bool)
      requires Valid()
      modifies this
      ensures Valid()
      ensures inserted == (eviction !in old(evictions))
      ensures evictions == old(evictions) + {eviction}
    {
      inserted := eviction !in evictions;
      ghost var before := evictions;
      evictions := evictions + {eviction};
      assert !inserted ==> evictions == before;
      VersionsAfterInsert(before, eviction);
      if inserted {
        socketAddrSet := socketAddrSet + {eviction.addr};
        if eviction.addr in socketAddrRefcount {
          socketAddrRefcount := socketAddrRefcount[eviction.addr := socketAddrRefcount[eviction.addr] + 1];
        } else {
          assert VersionsAt(before, eviction.addr) == {};
          assert |VersionsAt(before, eviction.addr)| == 0;
          socketAddrRefcount := socketAddrRefcount[eviction.addr := 1];
        }
      }
    }

    method Remove(eviction: ConnectionId) returns (removed: bool)
      requires Valid()
      modifies this
      ensures Valid()
      ensures removed == (eviction in old(evictions))
      ensures evictions == old(evictions) - {eviction}
    {
      removed := eviction in evictions;
      ghost var before := evictions;
      evictions := evictions - {eviction};
      assert VersionsAt(evictions, eviction.addr) == VersionsAt(before, eviction.addr) - {eviction};
      assert forall a :: a != eviction.addr ==> VersionsAt(evictions, a) == VersionsAt(before, a);
      if removed {
        var count := Saturating(socketAddrRefcount[eviction.addr] - 1);
        if count == 0 {
          assert eviction in VersionsAt(before, eviction.addr);
          assert VersionsAt(evictions, eviction.addr) == {};
          assert forall e :: e in evictions && e.addr == eviction.addr ==> e in VersionsAt(evictions, eviction.addr);
          socketAddrRefcount := socketAddrRefcount - {eviction.addr};
          socketAddrSet := socketAddrSet - {eviction.addr};
        } else {
          socketAddrRefcount := socketAddrRefcount[eviction.addr := count];
        }
      }
    }

    method Contains(eviction: ConnectionId) returns (r: bool)
      ensures r == (eviction in evictions)
    {
      r := eviction in evictions;
    }

    /** The address index answers for every version at once. */
    method ContainsSocketAddr(addr: SocketAddr) returns (r: bool)
      requires Valid()
      ensures r <==> exists e :: e in evictions && e.addr == addr
    {
      r := addr in socketAddrSet;
      if r {
        assert VersionsAt(evictions, addr) != {};
        ghost var e :| e in VersionsAt(evictions, addr);
        assert e in evictions && e.addr == addr;
      }
    }
  }
}
