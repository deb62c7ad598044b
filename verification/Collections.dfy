/** Small operations on sequences, sets and maps that several of the models share. */
module Collections {
  import opened Types

  function UpTo(n: nat): (r: set<nat>)
    ensures forall i :: i in r <==> 0 <= i <= n
  {
    if n == 0 then {0} else UpTo(n - 1) + {n}
  }

  function RemoveAt<T(!new)>(s: seq<T>, i: nat): (r: seq<T>)
    requires i < |s|
    ensures NoDuplicates(s) ==> NoDuplicates(r) && forall x :: x in r <==> x in s && x != s[i]
  {
    var r := s[..i] + s[i + 1..];
    assert forall x :: x in s <==> x in s[..i] || x == s[i] || x in s[i + 1..] by {
      assert s == s[..i] + [s[i]] + s[i + 1..];
    }
    r
  }

  function Push<K, V>(m: map<K, seq<V>>, k: K, v: V): map<K, seq<V>> {
    m[k := (if k in m then m[k] else []) + [v]]
  }

  function Keep<K, V>(m: map<K, seq<V>>, k: K, vs: seq<V>): map<K, seq<V>> {
    if vs == [] then m - {k} else m[k := vs]
  }

  method LeastKey<V>(queue: map<Instant, V>) returns (t: Instant)
    requires queue != map[]
    ensures t in queue && forall u :: u in queue ==> t <= u
  {
    LeastKeyExists(queue);
    t :| t in queue && forall u :: u in queue ==> t <= u;
  }

  lemma LeastKeyExists<V>(queue: map<Instant, V>)
    requires queue != map[]
    ensures exists t :: t in queue && forall u :: u in queue ==> t <= u
  {
    var t := LeastElement(queue.Keys);
  }

  lemma {:induction false} LeastElement(s: set<nat>) returns (t: nat)
    requires s != {}
    ensures t in s && forall u :: u in s ==> t <= u
  {
    var x :| x in s;
    if s == {x} {
      t := x;
    } else {
      t := LeastElement(s - {x});
      assert forall u :: u in s ==> u == x || u in s - {x};
      if x < t {
        t := x;
      }
    }
  }

  lemma {:induction false} CountElements<T>(s: seq<T>)
    requires NoDuplicates(s)
    ensures |Elements(s)| == |s|
  {
    if s == [] {
      assert Elements(s) == {};
    } else {
      CountElements(s[1..]);
      assert Elements(s) == Elements(s[1..]) + {s[0]};
      assert s[0] !in s[1..];
    }
  }

  method ListSet<V(==)>(s: set<V>) returns (r: seq<V>)
    ensures NoDuplicates(r)
    ensures forall v :: v in r <==> v in s
  {
    r := [];
    var rest := s;
    while rest != {}
      invariant rest <= s
      invariant NoDuplicates(r)
      invariant forall v :: v in r <==> v in s && v !in rest
      decreases |rest|
    {
      var v :| v in rest;
      r := r + [v];
      rest := rest - {v};
    }
  }
}
