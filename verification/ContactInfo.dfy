/** TPU contact info: the difference between the current map and a new list of nodes, and the patch
    that applies it. */
module ContactInfo {
  import opened Types

  datatype Contact = Contact(tpuQuic: Option<SocketAddr>, tpuQuicForwards: Option<SocketAddr>)

  /** A node of the response; its key is missing when it does not parse. */
  datatype Node = Node(key: Option<Pubkey>, contact: Contact)

  datatype Diff = Upsert(key: Pubkey, contact: Contact) | Remove(key: Pubkey)

  function Changes(current: map<Pubkey, Contact>, node: Node): bool {
    node.key.Some? && (node.key.value !in current || current[node.key.value] != node.contact)
  }

  function Upserts(current: map<Pubkey, Contact>, nodes: seq<Node>): seq<Diff> {
    if nodes == [] then []
    else
      var n := |nodes| - 1;
      Upserts(current, nodes[..n]) + if Changes(current, nodes[n]) then [Upsert(nodes[n].key.value, nodes[n].contact)] else []
  }

  predicate Mentions(nodes: seq<Node>, k: Pubkey) {
    exists i :: 0 <= i < |nodes| && nodes[i].key == Some(k)
  }

  /** `gone` lists the current keys that no node has, in the order in which a hash set yields them. */
  ghost predicate Gone(current: map<Pubkey, Contact>, nodes: seq<Node>, gone: seq<Pubkey>) {
    NoDuplicates(gone) && forall k :: k in gone <==> k in current && !Mentions(nodes, k)
  }

  function Removals(gone: seq<Pubkey>): seq<Diff> {
    seq(|gone|, i requires 0 <= i < |gone| => Remove(gone[i]))
  }

  function Apply(current: map<Pubkey, Contact>, diffs: seq<Diff>): map<Pubkey, Contact> {
    if diffs == [] then current
    else
      var before := Apply(current, diffs[..|diffs| - 1]);
      match diffs[|diffs| - 1]
      case Upsert(k, c) => before[k := c]
      case Remove(k) => before - {k}
  }

  /** The map a response stands for: each readable key with the contact of its last node. */
  function Snapshot(nodes: seq<Node>): map<Pubkey, Contact> {
    if nodes == [] then map[]
    else
      var before := Snapshot(nodes[..|nodes| - 1]);
      match nodes[|nodes| - 1].key
      case Some(k) => before[k := nodes[|nodes| - 1].contact]
      case None => before
  }

  ghost predicate DistinctKeys(nodes: seq<Node>) {
    forall i, j :: 0 <= i < j < |nodes| && nodes[i].key.Some? ==> nodes[i].key != nodes[j].key
  }

  // ---------------------------------------------------------------- one key at a time

  lemma {:induction false} SnapshotAt(nodes: seq<Node>, k: Pubkey)
    ensures k in Snapshot(nodes) <==> Mentions(nodes, k)
    ensures k in Snapshot(nodes) ==> exists i :: 0 <= i < |nodes| && nodes[i] == Node(Some(k), Snapshot(nodes)[k])
    decreases |nodes|
  {
    if nodes != [] {
      var n := |nodes| - 1;
      SnapshotAt(nodes[..n], k);
      assert forall i :: 0 <= i < n ==> nodes[..n][i] == nodes[i];
      if nodes[n].key == Some(k) {
        assert nodes[n] == Node(Some(k), Snapshot(nodes)[k]);
      }
    }
  }

  lemma {:induction false} UpsertsAre(current: map<Pubkey, Contact>, nodes: seq<Node>, d: Diff)
    ensures d in Upserts(current, nodes) <==>
      exists i :: 0 <= i < |nodes| && Changes(current, nodes[i]) && d == Upsert(nodes[i].key.value, nodes[i].contact)
    decreases |nodes|
  {
    if nodes != [] {
      var n := |nodes| - 1;
      UpsertsAre(current, nodes[..n], d);
      assert forall i :: 0 <= i < n ==> nodes[..n][i] == nodes[i];
      if i :| 0 <= i < |nodes| && Changes(current, nodes[i]) && d == Upsert(nodes[i].key.value, nodes[i].contact) {
        assert i < n ==> Changes(current, nodes[..n][i]);
      }
    }
  }

  /** When all diffs for a key are the same, that diff decides, wherever it stands. */
  lemma {:induction false} ApplyDecides(current: map<Pubkey, Contact>, diffs: seq<Diff>, k: Pubkey, d: Diff)
    requires d.key == k && d in diffs && forall e :: e in diffs && e.key == k ==> e == d
    ensures match d
            case Upsert(_, c) => k in Apply(current, diffs) && Apply(current, diffs)[k] == c
            case Remove(_) => k !in Apply(current, diffs)
    decreases |diffs|
  {
    var n := |diffs| - 1;
    assert diffs == diffs[..n] + [diffs[n]];
    if diffs[n].key == k {
      assert diffs[n] == d;
    } else {
      ApplyDecides(current, diffs[..n], k, d);
    }
  }

  lemma {:induction false} ApplyLeaves(current: map<Pubkey, Contact>, diffs: seq<Diff>, k: Pubkey)
    requires forall e :: e in diffs ==> e.key != k
    ensures k in Apply(current, diffs) <==> k in current
    ensures k in current ==> Apply(current, diffs)[k] == current[k]
    decreases |diffs|
  {
    if diffs != [] {
      var n := |diffs| - 1;
      assert diffs == diffs[..n] + [diffs[n]];
      ApplyLeaves(current, diffs[..n], k);
    }
  }

  // ---------------------------------------------------------------- distinct keys

  /** The diffs of a response with distinct keys, in any order and any number of times each. */
  ghost predicate SameDiffs(diffs: seq<Diff>, current: map<Pubkey, Contact>, nodes: seq<Node>, gone: seq<Pubkey>) {
    forall d :: d in diffs <==> d in Upserts(current, nodes) + Removals(gone)
  }

  lemma PatchAt(current: map<Pubkey, Contact>, nodes: seq<Node>, gone: seq<Pubkey>, diffs: seq<Diff>, k: Pubkey)
    requires DistinctKeys(nodes) && Gone(current, nodes, gone) && SameDiffs(diffs, current, nodes, gone)
    ensures k in Apply(current, diffs) <==> k in Snapshot(nodes)
    ensures k in Snapshot(nodes) ==> Apply(current, diffs)[k] == Snapshot(nodes)[k]
  {
    SnapshotAt(nodes, k);
    forall d ensures d in Upserts(current, nodes) <==>
      exists i :: 0 <= i < |nodes| && Changes(current, nodes[i]) && d == Upsert(nodes[i].key.value, nodes[i].contact) {
      UpsertsAre(current, nodes, d);
    }
    forall d ensures d in Removals(gone) <==> d.Remove? && d.key in gone {
      if d.Remove? && d.key in gone {
        var i :| 0 <= i < |gone| && gone[i] == d.key;
        assert Removals(gone)[i] == d;
      }
    }
    if Mentions(nodes, k) {
      var i :| 0 <= i < |nodes| && nodes[i] == Node(Some(k), Snapshot(nodes)[k]);
      assert k !in gone;
      if Changes(current, nodes[i]) {
        ApplyDecides(current, diffs, k, Upsert(k, nodes[i].contact));
      } else {
        ApplyLeaves(current, diffs, k);
      }
    } else if k in current {
      assert Remove(k) in Removals(gone);
      ApplyDecides(current, diffs, k, Remove(k));
    } else {
      ApplyLeaves(current, diffs, k);
    }
  }

  /** For a response with distinct keys, applying the diff in any order to the current map gives
      exactly the map of the response. */
  lemma PatchGivesSnapshot(current: map<Pubkey, Contact>, nodes: seq<Node>, gone: seq<Pubkey>, diffs: seq<Diff>)
    requires DistinctKeys(nodes) && Gone(current, nodes, gone) && SameDiffs(diffs, current, nodes, gone)
    ensures Apply(current, diffs) == Snapshot(nodes)
  {
    forall k ensures (k in Apply(current, diffs) <==> k in Snapshot(nodes)) && (k in Snapshot(nodes) ==> Apply(current, diffs)[k] == Snapshot(nodes)[k]) {
      PatchAt(current, nodes, gone, diffs, k);
    }
  }

  /** The diff is empty exactly if the maps are already equal. */
  lemma EmptyDiffMeansEqual(current: map<Pubkey, Contact>, nodes: seq<Node>, gone: seq<Pubkey>)
    requires DistinctKeys(nodes) && Gone(current, nodes, gone)
    ensures Upserts(current, nodes) + Removals(gone) == [] <==> current == Snapshot(nodes)
  {
    var diffs := Upserts(current, nodes) + Removals(gone);
    if diffs == [] {
      PatchGivesSnapshot(current, nodes, gone, diffs);
    } else if current == Snapshot(nodes) {
      NothingToDo(current, nodes, gone);
    }
  }

  lemma SnapshotOf(nodes: seq<Node>, i: nat)
    requires DistinctKeys(nodes) && i < |nodes| && nodes[i].key.Some?
    ensures nodes[i].key.value in Snapshot(nodes) && Snapshot(nodes)[nodes[i].key.value] == nodes[i].contact
  {
    SnapshotAt(nodes, nodes[i].key.value);
  }

  lemma {:induction false} NoUpserts(current: map<Pubkey, Contact>, nodes: seq<Node>)
    requires forall i :: 0 <= i < |nodes| ==> !Changes(current, nodes[i])
    ensures Upserts(current, nodes) == []
    decreases |nodes|
  {
    if nodes != [] {
      assert forall i :: 0 <= i < |nodes| - 1 ==> nodes[..|nodes| - 1][i] == nodes[i];
      NoUpserts(current, nodes[..|nodes| - 1]);
    }
  }

  lemma NothingToDo(current: map<Pubkey, Contact>, nodes: seq<Node>, gone: seq<Pubkey>)
    requires DistinctKeys(nodes) && Gone(current, nodes, gone) && current == Snapshot(nodes)
    ensures Upserts(current, nodes) == [] && gone == []
  {
    assert gone != [] ==> exists k :: k in gone by {
      if gone != [] {
        assert gone[0] in gone;
      }
    }
    forall i | 0 <= i < |nodes| ensures !Changes(current, nodes[i]) {
      if nodes[i].key.Some? {
        SnapshotOf(nodes, i);
      }
    }
    NoUpserts(current, nodes);
    forall k ensures k !in gone {
      SnapshotAt(nodes, k);
    }
  }

  // ---------------------------------------------------------------- repeated keys

  /** All nodes of the key carry what the map already has. */
  ghost predicate AllAsBefore(current: map<Pubkey, Contact>, nodes: seq<Node>, k: Pubkey) {
    forall i :: 0 <= i < |nodes| && nodes[i].key == Some(k) ==> !Changes(current, nodes[i])
  }

  lemma LastAsBefore(current: map<Pubkey, Contact>, nodes: seq<Node>, k: Pubkey)
    requires nodes != []
    ensures var n := |nodes| - 1;
            AllAsBefore(current, nodes, k) <==> AllAsBefore(current, nodes[..n], k) && (nodes[n].key == Some(k) ==> !Changes(current, nodes[n]))
  {
    hide Changes;
    var n := |nodes| - 1;
    assert forall i :: 0 <= i < n ==> nodes[..n][i] == nodes[i];
  }

  lemma {:induction false} UpsertsInOrder(current: map<Pubkey, Contact>, nodes: seq<Node>, k: Pubkey)
    ensures var r := Apply(current, Upserts(current, nodes));
            && (AllAsBefore(current, nodes, k) ==> (k in r <==> k in current) && (k in current ==> r[k] == current[k]))
            && (!AllAsBefore(current, nodes, k) ==> k in r && (k in current ==> r[k] != current[k]))
            && (k in Snapshot(nodes) && (k !in current || current[k] != Snapshot(nodes)[k]) ==> k in r && r[k] == Snapshot(nodes)[k])
    decreases |nodes|
  {
    if nodes == [] {
    } else {
      var n := |nodes| - 1;
      hide AllAsBefore;
      UpsertsInOrder(current, nodes[..n], k);
      LastAsBefore(current, nodes, k);
      if Changes(current, nodes[n]) {
        var u := Upserts(current, nodes[..n]);
        assert (u + [Upsert(nodes[n].key.value, nodes[n].contact)])[..|u|] == u;
      } else {
        assert Upserts(current, nodes[..n]) + [] == Upserts(current, nodes[..n]);
      }
    }
  }

  lemma {:induction false} ApplyConcat(current: map<Pubkey, Contact>, a: seq<Diff>, b: seq<Diff>)
    ensures Apply(current, a + b) == Apply(Apply(current, a), b)
    decreases |b|
  {
    if b == [] {
      assert a + b == a;
    } else {
      assert (a + b)[..|a + b| - 1] == a + b[..|b| - 1];
      ApplyConcat(current, a, b[..|b| - 1]);
    }
  }

  lemma {:induction false} RemovalsAt(current: map<Pubkey, Contact>, gone: seq<Pubkey>, k: Pubkey)
    ensures var r := Apply(current, Removals(gone));
            (k in r <==> k in current && k !in gone) && (k in r ==> r[k] == current[k])
    decreases |gone|
  {
    if gone != [] {
      var n := |gone| - 1;
      assert Removals(gone)[..n] == Removals(gone[..n]);
      assert gone == gone[..n] + [gone[n]];
      RemovalsAt(current, gone[..n], k);
    }
  }

  /** When a response repeats keys, the patch applied in order gives the map of the response exactly
      if every key either ends with a contact other than the current one, or never leaves it: an
      earlier node that differs is not undone by a later one that agrees with the old map. */
  lemma RepeatedKeys(current: map<Pubkey, Contact>, nodes: seq<Node>, gone: seq<Pubkey>)
    requires Gone(current, nodes, gone)
    ensures Apply(current, Upserts(current, nodes) + Removals(gone)) == Snapshot(nodes)
            <==> forall k :: k in Snapshot(nodes) && k in current && current[k] == Snapshot(nodes)[k] ==> AllAsBefore(current, nodes, k)
  {
    var r := Apply(current, Upserts(current, nodes) + Removals(gone));
    var mid := Apply(current, Upserts(current, nodes));
    var s := Snapshot(nodes);
    ApplyConcat(current, Upserts(current, nodes), Removals(gone));
    forall k ensures (k in r <==> k in s) && (k in s ==> (r[k] == s[k] <==> (k in current && current[k] == s[k] ==> AllAsBefore(current, nodes, k)))) {
      UpsertsInOrder(current, nodes, k);
      RemovalsAt(mid, gone, k);
      SnapshotAt(nodes, k);
      Unmentioned(current, nodes, k);
    }
  }

  lemma Unmentioned(current: map<Pubkey, Contact>, nodes: seq<Node>, k: Pubkey)
    ensures !Mentions(nodes, k) ==> AllAsBefore(current, nodes, k)
    ensures Mentions(nodes, k) && k !in current ==> !AllAsBefore(current, nodes, k)
  {
    if Mentions(nodes, k) && k !in current {
      var i :| 0 <= i < |nodes| && nodes[i].key == Some(k);
      assert Changes(current, nodes[i]);
    }
  }

  /** Here a repeated key ends as it was, but the patch leaves the value in between. */
  lemma RepetitionCanStick(k: Pubkey, a: Contact, b: Contact)
    requires a != b
    ensures var current, nodes := map[k := a], [Node(Some(k), b), Node(Some(k), a)];
            && Snapshot(nodes) == current
            && Apply(current, Upserts(current, nodes)) == map[k := b]
  {
    var current, nodes := map[k := a], [Node(Some(k), b), Node(Some(k), a)];
    assert nodes[..1] == [Node(Some(k), b)] && nodes[..1][..0] == [];
    assert Upserts(current, nodes[..1]) == [Upsert(k, b)];
    assert Upserts(current, nodes) == [Upsert(k, b)];
    assert [Upsert(k, b)][..0] == [];
    assert Apply(current, [Upsert(k, b)]) == current[k := b] == map[k := b];
    assert Snapshot(nodes[..1]) == map[k := b];
    assert Snapshot(nodes) == map[k := b][k := a] == map[k := a];
  }

  // ---------------------------------------------------------------- the refresh step

  method DetectTpuContactInfoDiff(current: map<Pubkey, Contact>, nodes: seq<Node>) returns (diffs: seq<Diff>, ghost gone: seq<Pubkey>)
    ensures Gone(current, nodes, gone)
    ensures diffs == Upserts(current, nodes) + Removals(gone)
  {
    var toRemove := current.Keys;
    diffs := [];
    for i := 0 to |nodes|
      invariant diffs == Upserts(current, nodes[..i])
      invariant forall k :: k in toRemove <==> k in current && !Mentions(nodes[..i], k)
    {
      assert nodes[..i + 1][..i] == nodes[..i];
      MentionsMore(nodes, i);
      var node := nodes[i];
      if node.key.Some? {
        toRemove := toRemove - {node.key.value};
        if node.key.value !in current || current[node.key.value] != node.contact {
          diffs := diffs + [Upsert(node.key.value, node.contact)];
        }
      }
    }
    assert nodes[..|nodes|] == nodes;
    gone := [];
    assert Removals(gone) == [];
    ghost var all := toRemove;
    while toRemove != {}
      invariant toRemove <= all
      invariant NoDuplicates(gone) && forall k :: k in gone <==> k in all && k !in toRemove
      invariant diffs == Upserts(current, nodes) + Removals(gone)
      decreases |toRemove|
    {
      var k :| k in toRemove;
      toRemove := toRemove - {k};
      assert Removals(gone + [k]) == Removals(gone) + [Remove(k)];
      diffs := diffs + [Remove(k)];
      gone := gone + [k];
    }
  }

  lemma MentionsMore(nodes: seq<Node>, i: nat)
    requires i < |nodes|
    ensures forall k :: Mentions(nodes[..i + 1], k) <==> Mentions(nodes[..i], k) || nodes[i].key == Some(k)
  {
    assert nodes[..i + 1] == nodes[..i] + [nodes[i]];
    forall k ensures Mentions(nodes[..i + 1], k) <==> Mentions(nodes[..i], k) || nodes[i].key == Some(k) {
      if Mentions(nodes[..i], k) {
        var j :| 0 <= j < i && nodes[..i][j].key == Some(k);
        assert nodes[..i + 1][j].key == Some(k);
      }
      if nodes[i].key == Some(k) {
        assert nodes[..i + 1][i].key == Some(k);
      }
      if Mentions(nodes[..i + 1], k) && nodes[i].key != Some(k) {
        var j :| 0 <= j <= i && nodes[..i + 1][j].key == Some(k);
        assert nodes[..i][j].key == Some(k);
      }
    }
  }

  class RpcClusterTpuQuicInfoService {
    var shared: map<Pubkey, Contact>

    constructor ()
      ensures shared == map[]
    {
      shared := map[];
    }

    method ApplyDiffPatch(diffs: seq<Diff>)
      modifies this
      ensures shared == Apply(old(shared), diffs)
    {
      for i := 0 to |diffs|
        invariant shared == Apply(old(shared), diffs[..i])
      {
        assert diffs[..i + 1][..i] == diffs[..i];
        match diffs[i]
        case Upsert(k, c) => shared := shared[k := c];
        case Remove(k) => shared := shared - {k};
      }
      assert diffs[..|diffs|] == diffs;
    }

    /** One refresh: nothing is written when there is nothing to change. */
    method Refresh(nodes: seq<Node>) returns (changed: bool)
      modifies this
      ensures DistinctKeys(nodes) ==> shared == Snapshot(nodes)
      ensures DistinctKeys(nodes) ==> changed == (old(shared) != Snapshot(nodes))
      ensures !changed ==> shared == old(shared)
    {
      var diffs, gone := DetectTpuContactInfoDiff(shared, nodes);
      changed := diffs != [];
      if DistinctKeys(nodes) {
        PatchGivesSnapshot(shared, nodes, gone, diffs);
        EmptyDiffMeansEqual(shared, nodes, gone);
      }
      if changed {
        ApplyDiffPatch(diffs);
      }
    }
  }
}
