/** The leader schedule: a compact form with one leader for every four slots, built from the nested
    form the RPC node answers with, and a double buffer that covers two epochs. */
module LeaderSchedule {
  import opened Types

  const SLOTS_PER_EPOCH := 432000
  const WINDOWS_PER_EPOCH := 108000
  const DEFAULT_PUBKEY := Pubkey(0)
  const U64_MAX := 0xFFFF_FFFF_FFFF_FFFF

  datatype Compact = Compact(firstSlot: nat, schedule: seq<Pubkey>)

  /** One row of the nested response: a leader, unless its key does not parse, and the indexes in
      the epoch of the slots it leads. */
  datatype Row = Row(leader: Option<Pubkey>, slots: seq<nat>)

  // ---------------------------------------------------------------- the compact form

  function Get(s: Compact, slot: nat): Option<Pubkey> {
    if slot < s.firstSlot || slot >= s.firstSlot + SLOTS_PER_EPOCH then None
    else
      var idx := (slot - s.firstSlot) / 4;
      if idx < |s.schedule| then Some(s.schedule[idx]) else None
  }

  /** The four slots of the window `idx`, each with its leader. */
  function Window(s: Compact, idx: nat): seq<(nat, Pubkey)>
    requires idx < |s.schedule|
  {
    var slot := s.firstSlot + idx * 4;
    var leader := s.schedule[idx];
    [(slot, leader), (slot + 1, leader), (slot + 2, leader), (slot + 3, leader)]
  }

  function Windows(s: Compact, n: nat): seq<(nat, Pubkey)>
    requires n <= |s.schedule|
  {
    if n == 0 then [] else Windows(s, n - 1) + Window(s, n - 1)
  }

  /** All slots of the schedule in order, each with its leader. */
  function IterUnnested(s: Compact): seq<(nat, Pubkey)> {
    Windows(s, |s.schedule|)
  }

  lemma {:induction false} WindowsAt(s: Compact, n: nat, i: nat)
    requires n <= |s.schedule| && i < 4 * n
    ensures |Windows(s, n)| == 4 * n
    ensures Windows(s, n)[i] == (s.firstSlot + i, s.schedule[i / 4])
    decreases n
  {
    if i < 4 * (n - 1) {
      WindowsAt(s, n - 1, i);
    } else {
      if n > 1 {
        WindowsAt(s, n - 1, 0);
      }
      assert i == 4 * (n - 1) || i == 4 * (n - 1) + 1 || i == 4 * (n - 1) + 2 || i == 4 * (n - 1) + 3;
      assert i / 4 == n - 1;
    }
  }

  /** Iterating gives every slot of the windows once, in order, with the leader `Get` finds. */
  lemma IterationAgreesWithGet(s: Compact, i: nat)
    requires |s.schedule| == WINDOWS_PER_EPOCH && i < SLOTS_PER_EPOCH
    ensures |IterUnnested(s)| == SLOTS_PER_EPOCH
    ensures IterUnnested(s)[i].0 == s.firstSlot + i
    ensures Get(s, s.firstSlot + i) == Some(IterUnnested(s)[i].1)
  {
    WindowsAt(s, WINDOWS_PER_EPOCH, i);
  }

  // ---------------------------------------------------------------- from the nested form

  /** The source indexes its vector with every aligned slot of a readable row. */
  ghost predicate InRange(resp: seq<Row>) {
    forall r, i :: r in resp && r.leader.Some? && i in r.slots && i % 4 == 0 ==> i < SLOTS_PER_EPOCH
  }

  /** The leader the rows give to window `w`: that of the last row that lists its first slot. */
  function Winner(resp: seq<Row>, w: nat): Pubkey {
    if resp == [] then DEFAULT_PUBKEY
    else
      var last := resp[|resp| - 1];
      if last.leader.Some? && 4 * w in last.slots then last.leader.value else Winner(resp[..|resp| - 1], w)
  }

  function Unnested(slot: nat, resp: seq<Row>): Compact {
    Compact(slot / SLOTS_PER_EPOCH * SLOTS_PER_EPOCH, seq(WINDOWS_PER_EPOCH, w requires 0 <= w => Winner(resp, w)))
  }

  /** The nested response says that `p` leads slot `i` of the epoch. */
  ghost predicate Leads(resp: seq<Row>, i: nat, p: Pubkey) {
    exists r :: r in resp && r.leader == Some(p) && i in r.slots
  }

  ghost predicate HasLeader(resp: seq<Row>, i: nat) {
    exists p :: Leads(resp, i, p)
  }

  /** Every slot has one leader, and the four slots of a window have the same. */
  ghost predicate CompleteAndAligned(resp: seq<Row>) {
    && (forall i {:trigger HasLeader(resp, i)} :: 0 <= i < SLOTS_PER_EPOCH ==> HasLeader(resp, i))
    && (forall i, j, p, q :: 0 <= i < SLOTS_PER_EPOCH && j == i / 4 * 4 && Leads(resp, i, p) && Leads(resp, j, q) ==> p == q)
  }

  lemma {:induction false} WinnerLeads(resp: seq<Row>, w: nat)
    ensures Leads(resp, 4 * w, Winner(resp, w)) || (Winner(resp, w) == DEFAULT_PUBKEY && forall p :: !Leads(resp, 4 * w, p))
    decreases |resp|
  {
    if resp != [] {
      var n := |resp| - 1;
      assert resp == resp[..n] + [resp[n]];
      if !(resp[n].leader.Some? && 4 * w in resp[n].slots) {
        WinnerLeads(resp[..n], w);
        if Leads(resp[..n], 4 * w, Winner(resp[..n], w)) {
          var r :| r in resp[..n] && r.leader == Some(Winner(resp[..n], w)) && 4 * w in r.slots;
          assert r in resp;
        } else {
          forall p ensures !Leads(resp, 4 * w, p) {
            assert !Leads(resp[..n], 4 * w, p);
          }
        }
      } else {
        assert resp[n] in resp;
      }
    }
  }

  /** For any response: a window belongs to the last readable row that lists its first slot. */
  lemma {:induction false} LastClaimWins(slot: nat, resp: seq<Row>, w: nat, i: nat)
    requires w < WINDOWS_PER_EPOCH && i < |resp| && resp[i].leader.Some? && 4 * w in resp[i].slots
    requires forall j :: i < j < |resp| ==> resp[j].leader.None? || 4 * w !in resp[j].slots
    ensures Unnested(slot, resp).schedule[w] == resp[i].leader.value
    decreases |resp|
  {
    var n := |resp| - 1;
    if i < n {
      LastClaimWins(slot, resp[..n], w, i);
    }
  }

  /** Compacting a complete nested response and reading it back gives every slot its leader: by
      lookup, and by iterating over the whole epoch. */
  lemma CompactingKeepsLeaders(slot: nat, resp: seq<Row>, i: nat, p: Pubkey)
    requires CompleteAndAligned(resp) && i < SLOTS_PER_EPOCH
    ensures var s := Unnested(slot, resp);
            && (Leads(resp, i, p) <==> Get(s, s.firstSlot + i) == Some(p))
            && |IterUnnested(s)| == SLOTS_PER_EPOCH
            && (Leads(resp, i, p) <==> IterUnnested(s)[i] == (s.firstSlot + i, p))
  {
    var s := Unnested(slot, resp);
    var w := i / 4;
    WinnerLeads(resp, w);
    assert HasLeader(resp, i) && HasLeader(resp, 4 * w);
    var q :| Leads(resp, i, q);
    var q' :| Leads(resp, 4 * w, q');
    assert q == q' == Winner(resp, w);
    IterationAgreesWithGet(s, i);
  }

  /** For any response: rows with unreadable keys and slots that do not start a window count for
      nothing, and a window nobody claims has the default key. */
  lemma UnclaimedWindowsAreDefault(slot: nat, resp: seq<Row>, w: nat)
    requires w < WINDOWS_PER_EPOCH && forall p :: !Leads(resp, 4 * w, p)
    ensures var s := Unnested(slot, resp); Get(s, s.firstSlot + 4 * w + 3) == Some(DEFAULT_PUBKEY)
  {
    WinnerLeads(resp, w);
  }

  method FillRow(ret: array<Pubkey>, row: Row, ghost before: seq<Row>)
    requires ret.Length == WINDOWS_PER_EPOCH && InRange(before + [row]) && row.leader.Some?
    requires forall w :: 0 <= w < WINDOWS_PER_EPOCH ==> ret[w] == Winner(before, w)
    modifies ret
    ensures forall w :: 0 <= w < WINDOWS_PER_EPOCH ==> ret[w] == Winner(before + [row], w)
  {
    assert (before + [row])[..|before|] == before;
    assert row in before + [row];
    for j := 0 to |row.slots|
      invariant forall w :: 0 <= w < WINDOWS_PER_EPOCH ==>
        ret[w] == if 4 * w in row.slots[..j] then row.leader.value else Winner(before, w)
    {
      var s := row.slots[j];
      assert s in row.slots;
      assert row.slots[..j + 1] == row.slots[..j] + [s];
      if s % 4 == 0 {
        assert forall w :: 4 * w == s <==> w == s / 4;
        ret[s / 4] := row.leader.value;
      } else {
        assert forall w :: 4 * w != s;
      }
    }
    assert row.slots[..|row.slots|] == row.slots;
  }

  method UnnestRpcGetLeaderScheduleResp(slot: nat, resp: seq<Row>) returns (s: Compact)
    requires InRange(resp)
    ensures s == Unnested(slot, resp)
  {
    var ret := new Pubkey[WINDOWS_PER_EPOCH](_ => DEFAULT_PUBKEY);
    for i := 0 to |resp|
      invariant forall w :: 0 <= w < WINDOWS_PER_EPOCH ==> ret[w] == Winner(resp[..i], w)
    {
      assert resp[..i + 1] == resp[..i] + [resp[i]];
      assert resp[..i + 1][..i] == resp[..i];
      if resp[i].leader.Some? {
        assert forall r :: r in resp[..i + 1] ==> r in resp;
        FillRow(ret, resp[i], resp[..i]);
      }
    }
    assert resp[..|resp|] == resp;
    var epoch := slot / SLOTS_PER_EPOCH;
    s := Compact(epoch * SLOTS_PER_EPOCH, ret[..]);
  }

  // ---------------------------------------------------------------- the double buffer

  datatype Buffers = Buffers(current: Compact, next: Compact)

  function LeaderFromSchedules(b: Buffers, slot: nat): Option<Pubkey> {
    if slot >= b.next.firstSlot then Get(b.next, slot) else Get(b.current, slot)
  }

  /** The buffers hold complete schedules of two successive epochs. */
  ghost predicate Adjacent(b: Buffers, epoch: nat) {
    && b.current.firstSlot == epoch * SLOTS_PER_EPOCH
    && b.next.firstSlot == (epoch + 1) * SLOTS_PER_EPOCH
    && |b.current.schedule| == WINDOWS_PER_EPOCH
    && |b.next.schedule| == WINDOWS_PER_EPOCH
  }

  /** Adjacent buffers know the leader of exactly the slots of their two epochs. */
  lemma CoversTwoEpochs(b: Buffers, epoch: nat, slot: nat)
    requires Adjacent(b, epoch)
    ensures LeaderFromSchedules(b, slot).Some? <==> epoch * SLOTS_PER_EPOCH <= slot < (epoch + 2) * SLOTS_PER_EPOCH
  {
  }

  /** The schedule of the slot's own epoch names `p` for the slot's window. */
  ghost predicate LedBy(b: Buffers, epoch: nat, slot: nat, p: Pubkey)
    requires Adjacent(b, epoch)
  {
    || (slot / SLOTS_PER_EPOCH == epoch && b.current.schedule[slot % SLOTS_PER_EPOCH / 4] == p)
    || (slot / SLOTS_PER_EPOCH == epoch + 1 && b.next.schedule[slot % SLOTS_PER_EPOCH / 4] == p)
  }

  /** Adjacent buffers answer with the leader from the schedule of the slot's own epoch. */
  lemma LeaderIsScheduled(b: Buffers, epoch: nat, slot: nat, p: Pubkey)
    requires Adjacent(b, epoch)
    ensures LeaderFromSchedules(b, slot) == Some(p) <==> LedBy(b, epoch, slot, p)
  {
    OffsetInEpoch(slot, epoch);
    OffsetInEpoch(slot, epoch + 1);
  }

  lemma OffsetInEpoch(slot: nat, epoch: nat)
    ensures slot / SLOTS_PER_EPOCH == epoch <==> epoch * SLOTS_PER_EPOCH <= slot < (epoch + 1) * SLOTS_PER_EPOCH
    ensures slot / SLOTS_PER_EPOCH == epoch ==> slot % SLOTS_PER_EPOCH == slot - epoch * SLOTS_PER_EPOCH
  {
  }

  /** The buffers hold what the two responses say of the epoch and of the one after it. */
  ghost predicate Built(b: Buffers, epoch: nat, current: seq<Row>, next: seq<Row>) {
    b == Buffers(Unnested(epoch * SLOTS_PER_EPOCH, current), Unnested((epoch + 1) * SLOTS_PER_EPOCH, next))
  }

  /** The responses name `p` as the leader of the slot. */
  ghost predicate Announced(epoch: nat, current: seq<Row>, next: seq<Row>, slot: nat, p: Pubkey) {
    || (slot / SLOTS_PER_EPOCH == epoch && Leads(current, slot % SLOTS_PER_EPOCH, p))
    || (slot / SLOTS_PER_EPOCH == epoch + 1 && Leads(next, slot % SLOTS_PER_EPOCH, p))
  }

  lemma BuiltAdjacent(b: Buffers, epoch: nat, current: seq<Row>, next: seq<Row>)
    requires Built(b, epoch, current, next)
    ensures Adjacent(b, epoch)
  {
  }

  /** Buffers built from complete responses answer with the leader the response of the slot's own
      epoch names, and with nobody for a slot of another epoch. */
  lemma LeaderIsAnnounced(b: Buffers, epoch: nat, current: seq<Row>, next: seq<Row>, slot: nat, p: Pubkey)
    requires Built(b, epoch, current, next) && CompleteAndAligned(current) && CompleteAndAligned(next)
    ensures LeaderFromSchedules(b, slot) == Some(p) <==> Announced(epoch, current, next, slot, p)
  {
    hide CompleteAndAligned, Leads;
    OffsetInEpoch(slot, epoch);
    OffsetInEpoch(slot, epoch + 1);
    if slot / SLOTS_PER_EPOCH == epoch {
      CompactingKeepsLeaders(epoch * SLOTS_PER_EPOCH, current, slot % SLOTS_PER_EPOCH, p);
    } else if slot / SLOTS_PER_EPOCH == epoch + 1 {
      CompactingKeepsLeaders((epoch + 1) * SLOTS_PER_EPOCH, next, slot % SLOTS_PER_EPOCH, p);
    }
  }

  /** Slots of one four-slot window have the same leader, across the epoch boundary as well. */
  lemma WindowHasOneLeader(b: Buffers, epoch: nat, slot: nat, slot': nat)
    requires Adjacent(b, epoch) && slot / 4 == slot' / 4
    ensures LeaderFromSchedules(b, slot) == LeaderFromSchedules(b, slot')
  {
    SameWindow(epoch * WINDOWS_PER_EPOCH, slot, slot');
    SameWindow((epoch + 1) * WINDOWS_PER_EPOCH, slot, slot');
    SameWindow((epoch + 2) * WINDOWS_PER_EPOCH, slot, slot');
    if slot >= b.current.firstSlot {
      OffsetWindow(epoch * WINDOWS_PER_EPOCH, slot, slot');
    }
    if slot >= b.next.firstSlot {
      OffsetWindow((epoch + 1) * WINDOWS_PER_EPOCH, slot, slot');
    }
  }

  lemma SameWindow(w: nat, slot: nat, slot': nat)
    requires slot / 4 == slot' / 4
    ensures slot >= 4 * w <==> slot' >= 4 * w
  {
  }

  lemma OffsetWindow(w: nat, slot: nat, slot': nat)
    requires slot / 4 == slot' / 4 && slot >= 4 * w
    ensures slot' >= 4 * w && (slot - 4 * w) / 4 == (slot' - 4 * w) / 4
  {
  }

  // ---------------------------------------------------------------- fanout

  /** The slots a fanout looks at: from `slot` in steps of four, below `end`. */
  function Strides(slot: nat, end: nat): seq<nat>
    decreases end - slot
  {
    if slot >= end then [] else [slot] + Strides(slot + 4, end)
  }

  lemma {:induction false} StridesAt(slot: nat, end: nat, t: nat)
    ensures t in Strides(slot, end) <==> slot <= t < end && (t - slot) % 4 == 0
    decreases end - slot
  {
    if slot < end {
      StridesAt(slot + 4, end, t);
      if t >= slot + 4 {
        assert (t - slot) % 4 == (t - (slot + 4)) % 4;
      }
    }
  }

  /** The leaders known for the slots, in order. */
  function Known(b: Buffers, slots: seq<nat>): seq<Pubkey> {
    if slots == [] then []
    else
      var before := Known(b, slots[..|slots| - 1]);
      match LeaderFromSchedules(b, slots[|slots| - 1])
      case Some(p) => before + [p]
      case None => before
  }

  lemma {:induction false} KnownLeaders(b: Buffers, slots: seq<nat>, p: Pubkey)
    ensures p in Known(b, slots) <==> exists t :: t in slots && LeaderFromSchedules(b, t) == Some(p)
    decreases |slots|
  {
    if slots != [] {
      var n := |slots| - 1;
      assert slots == slots[..n] + [slots[n]];
      KnownLeaders(b, slots[..n], p);
      if LeaderFromSchedules(b, slots[n]) == Some(p) {
        assert slots[n] in slots;
      }
      assert forall t :: t in slots <==> t in slots[..n] || t == slots[n];
    }
  }

  function FanoutEnd(currentSlot: nat, fanoutSlots: nat): nat {
    Min(currentSlot + fanoutSlots, U64_MAX)
  }

  /** The answer to a fanout request: the known leaders of its slots, each at its first place. */
  function Fanout(b: Buffers, currentSlot: nat, fanoutSlots: nat): seq<Pubkey> {
    Distinct(Known(b, Strides(currentSlot, FanoutEnd(currentSlot, fanoutSlots))))
  }

  /** Whether the strides of the range visit every window the range touches. */
  predicate Aligned(slot: nat, end: nat) {
    slot >= end || slot % 4 + (end - slot - 1) % 4 < 4
  }

  /** The stride that shares its window with `t`, for a range whose strides visit every window. */
  lemma StrideOf(slot: nat, end: nat, t: nat)
    requires Aligned(slot, end) && slot <= t < end
    ensures exists u :: u in Strides(slot, end) && u / 4 == t / 4
  {
    var d := (t - slot) % 4;
    var u := t - d;
    assert (u - slot) % 4 == 0;
    StridesAt(slot, end, u);
    if u / 4 != t / 4 {
      StrideAfter(slot, end, t);
      var v := u + 4;
      StridesAt(slot, end, v);
      assert v in Strides(slot, end) && v / 4 == t / 4;
    }
  }

  lemma WithinWindow(slot: nat, k: nat, a: nat)
    requires slot % 4 + a < 4
    ensures (slot + 4 * k + a) / 4 == (slot + 4 * k) / 4
  {
    var q, c := slot / 4, slot % 4;
    assert slot + 4 * k + a == 4 * (q + k) + (c + a) && slot + 4 * k == 4 * (q + k) + c;
  }

  lemma StrideAfter(slot: nat, end: nat, t: nat)
    requires Aligned(slot, end) && slot <= t < end
    requires var u := t - (t - slot) % 4; u / 4 != t / 4
    ensures var v := t - (t - slot) % 4 + 4; v < end && v / 4 == t / 4 && v >= slot && (v - slot) % 4 == 0
  {
    var k, a := (t - slot) / 4, (t - slot) % 4;
    var m, e := (end - slot - 1) / 4, (end - slot - 1) % 4;
    assert t == slot + 4 * k + a && end == slot + 4 * m + e + 1;
    if slot % 4 + a < 4 {
      WithinWindow(slot, k, a);
      assert false;
    }
    assert k <= m;
    assert k < m;
  }

  ghost predicate Visited(slot: nat, end: nat, t: nat) {
    exists u :: u in Strides(slot, end) && u / 4 == t / 4
  }

  /** The strides visit every window the range touches if and only if the offset of the first slot
      in its window and that of the range's length add up to less than a window. */
  lemma FanoutVisitsAllWindows(slot: nat, end: nat)
    ensures Aligned(slot, end) <==> forall t :: slot <= t < end ==> Visited(slot, end, t)
  {
    if Aligned(slot, end) {
      forall t | slot <= t < end ensures Visited(slot, end, t) {
        StrideOf(slot, end, t);
      }
    } else {
      forall u | u in Strides(slot, end) ensures u / 4 != (end - 1) / 4 {
        StridesAt(slot, end, u);
        LastWindowMissed(slot, end, u);
      }
      assert !Visited(slot, end, end - 1);
    }
  }

  lemma LastWindowMissed(slot: nat, end: nat, u: nat)
    requires !Aligned(slot, end) && slot <= u < end && (u - slot) % 4 == 0
    ensures u / 4 != (end - 1) / 4
  {
    var q, c := slot / 4, slot % 4;
    var m, e := (end - slot - 1) / 4, (end - slot - 1) % 4;
    var j := (u - slot) / 4;
    assert slot == 4 * q + c && end - 1 == 4 * (q + m) + (c + e) && u == 4 * (q + j) + c;
    assert j <= m;
    assert (end - 1) / 4 == q + m + 1;
    assert u / 4 == q + j;
  }

  /** The answer lists no leader twice and only leaders of slots in the range; for an aligned range
      it lists the leader of every slot in it. */
  lemma FanoutLeaders(b: Buffers, epoch: nat, currentSlot: nat, fanoutSlots: nat, p: Pubkey)
    requires Adjacent(b, epoch)
    ensures var end := FanoutEnd(currentSlot, fanoutSlots);
            && NoDuplicates(Fanout(b, currentSlot, fanoutSlots))
            && (p in Fanout(b, currentSlot, fanoutSlots) ==> exists t :: currentSlot <= t < end && LedBy(b, epoch, t, p))
            && (Aligned(currentSlot, end) ==>
                  (p in Fanout(b, currentSlot, fanoutSlots) <==> exists t :: currentSlot <= t < end && LedBy(b, epoch, t, p)))
  {
    hide LedBy, LeaderFromSchedules;
    var end := FanoutEnd(currentSlot, fanoutSlots);
    var slots := Strides(currentSlot, end);
    KnownLeaders(b, slots, p);
    if p in Fanout(b, currentSlot, fanoutSlots) {
      var t :| t in slots && LeaderFromSchedules(b, t) == Some(p);
      StridesAt(currentSlot, end, t);
      LeaderIsScheduled(b, epoch, t, p);
    }
    if t :| currentSlot <= t < end && LedBy(b, epoch, t, p) && Aligned(currentSlot, end) {
      StrideOf(currentSlot, end, t);
      var u :| u in slots && u / 4 == t / 4;
      LeaderIsScheduled(b, epoch, t, p);
      WindowHasOneLeader(b, epoch, u, t);
    }
  }

  /** For an aligned range and complete responses the fanout lists exactly the leaders that the
      responses name for the slots of the range. */
  lemma FanoutAnnounced(b: Buffers, epoch: nat, current: seq<Row>, next: seq<Row>, currentSlot: nat, fanoutSlots: nat, p: Pubkey)
    requires Built(b, epoch, current, next) && CompleteAndAligned(current) && CompleteAndAligned(next)
    requires Aligned(currentSlot, FanoutEnd(currentSlot, fanoutSlots))
    ensures p in Fanout(b, currentSlot, fanoutSlots) <==>
            exists t :: currentSlot <= t < currentSlot + fanoutSlots && t < 0xFFFF_FFFF_FFFF_FFFF && Announced(epoch, current, next, t, p)
  {
    hide LedBy, LeaderFromSchedules, Announced, CompleteAndAligned, Fanout;
    BuiltAdjacent(b, epoch, current, next);
    FanoutLeaders(b, epoch, currentSlot, fanoutSlots, p);
    forall t: nat ensures LedBy(b, epoch, t, p) <==> Announced(epoch, current, next, t, p) {
      LeaderIsScheduled(b, epoch, t, p);
      LeaderIsAnnounced(b, epoch, current, next, t, p);
    }
  }

  ghost predicate Increasing(slots: seq<nat>) {
    forall i, j :: 0 <= i < j < |slots| ==> slots[i] < slots[j]
  }

  lemma {:induction false} StridesIncrease(slot: nat, end: nat)
    ensures Increasing(Strides(slot, end)) && forall t :: t in Strides(slot, end) ==> t >= slot
    decreases end - slot
  {
    if slot < end {
      StridesIncrease(slot + 4, end);
      var rest := Strides(slot + 4, end);
      assert forall i :: 0 <= i < |rest| ==> rest[i] in rest;
    }
  }

  /** `p` leads one of the slots, before any that `q` leads. */
  ghost predicate Earlier(b: Buffers, slots: seq<nat>, p: Pubkey, q: Pubkey) {
    exists t :: t in slots && LeaderFromSchedules(b, t) == Some(p)
                && forall u :: u in slots && LeaderFromSchedules(b, u) == Some(q) ==> t < u
  }

  lemma {:induction false} FirstPlaces(b: Buffers, slots: seq<nat>, i: nat, j: nat)
    requires Increasing(slots) && i < j < |Distinct(Known(b, slots))|
    ensures Earlier(b, slots, Distinct(Known(b, slots))[i], Distinct(Known(b, slots))[j])
    decreases |slots|
  {
    hide LeaderFromSchedules;
    if slots != [] {
      var n := |slots| - 1;
      var visited := slots[..n];
      assert slots == visited + [slots[n]];
      VisitOneMore(b, visited, slots[n]);
      var before := Distinct(Known(b, visited));
      var p, q := Distinct(Known(b, slots))[i], Distinct(Known(b, slots))[j];
      assert p == before[i] && p in before;
      KnownLeaders(b, visited, p);
      KnownLeaders(b, visited, q);
      if j < |before| {
        FirstPlaces(b, visited, i, j);
        var t :| t in visited && LeaderFromSchedules(b, t) == Some(p)
                 && forall u :: u in visited && LeaderFromSchedules(b, u) == Some(q) ==> t < u;
        assert t in slots && t < slots[n];
      } else {
        var t :| t in visited && LeaderFromSchedules(b, t) == Some(p);
        assert t in slots && t < slots[n];
        assert q !in before;
      }
    }
  }

  /** The fanout lists the leaders in the order in which their first looked-up slots come. */
  lemma FanoutInOrder(b: Buffers, currentSlot: nat, fanoutSlots: nat, i: nat, j: nat)
    requires i < j < |Fanout(b, currentSlot, fanoutSlots)|
    ensures var f := Fanout(b, currentSlot, fanoutSlots);
            Earlier(b, Strides(currentSlot, FanoutEnd(currentSlot, fanoutSlots)), f[i], f[j])
  {
    StridesIncrease(currentSlot, FanoutEnd(currentSlot, fanoutSlots));
    FirstPlaces(b, Strides(currentSlot, FanoutEnd(currentSlot, fanoutSlots)), i, j);
  }

  /** A range that starts at a window boundary is always aligned. */
  lemma BoundaryIsAligned(currentSlot: nat, fanoutSlots: nat)
    requires currentSlot % 4 == 0
    ensures Aligned(currentSlot, FanoutEnd(currentSlot, fanoutSlots))
  {
  }

  lemma {:induction false} StridesCount(slot: nat, end: nat)
    ensures |Strides(slot, end)| == if slot >= end then 0 else (end - slot + 3) / 4
    decreases end - slot
  {
    if slot < end {
      StridesCount(slot + 4, end);
      assert (end - slot + 3) / 4 == 1 + (end - slot - 1) / 4;
    }
  }

  // ---------------------------------------------------------------- the managed schedule

  class ManagedLeaderSchedule {
    var buffers: Buffers
    var currentEpoch: nat
    var fail: bool
    ghost var currentResponse: seq<Row>
    ghost var nextResponse: seq<Row>

    /** The two buffers always hold what the last responses said of the current epoch and of the
        one after it. */
    ghost predicate Valid()
      reads this
    {
      Adjacent(buffers, currentEpoch) && Built(buffers, currentEpoch, currentResponse, nextResponse)
    }

    /** Every slot has a leader in the responses the buffers were built from. */
    ghost predicate Complete()
      reads this
    {
      CompleteAndAligned(currentResponse) && CompleteAndAligned(nextResponse)
    }

    /** Starts from the schedule of the epoch of `slot` and the one after it. */
    constructor (slot: nat, current: seq<Row>, next: seq<Row>)
      requires InRange(current) && InRange(next)
      ensures Valid() && !fail && currentEpoch == slot / SLOTS_PER_EPOCH
      ensures currentResponse == current && nextResponse == next
      ensures buffers == Buffers(Unnested(slot, current), Unnested((slot / SLOTS_PER_EPOCH + 1) * SLOTS_PER_EPOCH, next))
    {
      var initial := UnnestRpcGetLeaderScheduleResp(slot, current);
      var epoch := initial.firstSlot / SLOTS_PER_EPOCH;
      var following := UnnestRpcGetLeaderScheduleResp((epoch + 1) * SLOTS_PER_EPOCH, next);
      buffers, currentEpoch, fail := Buffers(initial, following), epoch, false;
      currentResponse, nextResponse := current, next;
    }

    /** One turn of the refresh loop. The node's answers are `epoch`, and the schedules of the
        epochs asked for; each may be missing, in which case everything is kept. */
    method Refresh(epoch: Option<nat>, current: Option<seq<Row>>, next: Option<seq<Row>>)
      requires Valid()
      requires current.Some? ==> InRange(current.value)
      requires next.Some? ==> InRange(next.value)
      modifies this`buffers, this`currentEpoch, this`currentResponse, this`nextResponse
      ensures Valid()
      ensures epoch.None? || next.None? || (epoch.value != old(currentEpoch) && current.None?) ==>
        buffers == old(buffers) && currentEpoch == old(currentEpoch)
        && currentResponse == old(currentResponse) && nextResponse == old(nextResponse)
      ensures epoch.Some? && next.Some? && epoch.value == old(currentEpoch) ==>
        currentEpoch == old(currentEpoch) && currentResponse == old(currentResponse) && nextResponse == next.value
        && buffers == old(buffers).(next := Unnested((currentEpoch + 1) * SLOTS_PER_EPOCH, next.value))
      ensures epoch.Some? && next.Some? && current.Some? && epoch.value != old(currentEpoch) ==>
        currentEpoch == epoch.value && currentResponse == current.value && nextResponse == next.value
        && buffers == Buffers(Unnested(currentEpoch * SLOTS_PER_EPOCH, current.value), Unnested((currentEpoch + 1) * SLOTS_PER_EPOCH, next.value))
    {
      if epoch.None? {
        return;
      }
      if epoch.value == currentEpoch {
        if next.None? {
          return;
        }
        var nextSchedule := UnnestRpcGetLeaderScheduleResp((currentEpoch + 1) * SLOTS_PER_EPOCH, next.value);
        buffers, nextResponse := buffers.(next := nextSchedule), next.value;
      } else {
        if current.None? || next.None? {
          return;
        }
        var currentSchedule := UnnestRpcGetLeaderScheduleResp(epoch.value * SLOTS_PER_EPOCH, current.value);
        var nextSchedule := UnnestRpcGetLeaderScheduleResp((epoch.value + 1) * SLOTS_PER_EPOCH, next.value);
        buffers := Buffers(currentSchedule, nextSchedule);
        currentEpoch := epoch.value;
        currentResponse, nextResponse := current.value, next.value;
      }
    }

    /** Answers with the leader the response of the slot's own epoch names. */
    method GetLeader(slot: nat) returns (failed: bool, leader: Option<Pubkey>)
      ensures failed == fail
      ensures !failed ==> leader == LeaderFromSchedules(buffers, slot)
      ensures !failed && Valid() ==> (leader.Some? <==> currentEpoch <= slot / SLOTS_PER_EPOCH <= currentEpoch + 1)
      ensures !failed && Valid() ==> forall p :: leader == Some(p) <==> LedBy(buffers, currentEpoch, slot, p)
      ensures !failed && Valid() && Complete() ==>
        forall p :: leader == Some(p) <==> Announced(currentEpoch, currentResponse, nextResponse, slot, p)
    {
      hide LedBy, Announced, CompleteAndAligned, LeaderFromSchedules;
      ghost var found := LeaderFromSchedules(buffers, slot);
      if Valid() {
        CoversTwoEpochs(buffers, currentEpoch, slot);
        forall p ensures found == Some(p) <==> LedBy(buffers, currentEpoch, slot, p) {
          LeaderIsScheduled(buffers, currentEpoch, slot, p);
        }
      }
      if Valid() && Complete() {
        forall p ensures found == Some(p) <==> Announced(currentEpoch, currentResponse, nextResponse, slot, p) {
          LeaderIsAnnounced(buffers, currentEpoch, currentResponse, nextResponse, slot, p);
        }
      }
      failed := fail;
      leader := if fail then None else LeaderFromSchedules(buffers, slot);
    }

    method GetUniqueLeadersForSlotFanout(currentSlot: nat, fanoutSlots: nat) returns (failed: bool, leaders: seq<Pubkey>)
      ensures failed == fail
      ensures !failed ==> leaders == Fanout(buffers, currentSlot, fanoutSlots)
      ensures var end := FanoutEnd(currentSlot, fanoutSlots);
        !failed && Valid() && Complete() && Aligned(currentSlot, end) ==>
          forall p :: p in leaders <==>
            exists t :: currentSlot <= t < currentSlot + fanoutSlots && t < 0xFFFF_FFFF_FFFF_FFFF
                        && Announced(currentEpoch, currentResponse, nextResponse, t, p)
    {
      hide Distinct, Known, LeaderFromSchedules, Announced, Aligned, CompleteAndAligned;
      ghost var end := FanoutEnd(currentSlot, fanoutSlots);
      if Valid() && Complete() && Aligned(currentSlot, end) {
        forall p ensures p in Fanout(buffers, currentSlot, fanoutSlots) <==>
          exists t :: currentSlot <= t < currentSlot + fanoutSlots && t < 0xFFFF_FFFF_FFFF_FFFF && Announced(currentEpoch, currentResponse, nextResponse, t, p)
        {
          FanoutAnnounced(buffers, currentEpoch, currentResponse, nextResponse, currentSlot, fanoutSlots, p);
        }
      }
      NothingKnown(buffers);
      leaders := [];
      if fail {
        return true, [];
      }
      failed := false;
      var endSlot := FanoutEnd(currentSlot, fanoutSlots);
      var slot := currentSlot;
      ghost var visited: seq<nat> := [];
      while slot < endSlot
        invariant Strides(currentSlot, endSlot) == visited + Strides(slot, endSlot)
        invariant leaders == Distinct(Known(buffers, visited))
        decreases if slot < endSlot then endSlot - slot else 0
      {
        var leader := LeaderFromSchedules(buffers, slot);
        VisitOneMore(buffers, visited, slot);
        if leader.Some? && leader.value !in leaders {
          leaders := leaders + [leader.value];
        }
        visited := visited + [slot];
        slot := slot + 4;
      }
      assert visited + [] == visited;
    }
  }

  lemma NothingKnown(b: Buffers)
    ensures Distinct(Known(b, [])) == []
  {
  }

  lemma VisitOneMore(b: Buffers, visited: seq<nat>, slot: nat)
    ensures var leader, before := LeaderFromSchedules(b, slot), Distinct(Known(b, visited));
            Distinct(Known(b, visited + [slot])) == if leader.Some? && leader.value !in before then before + [leader.value] else before
  {
    assert (visited + [slot])[..|visited|] == visited;
    var known := Known(b, visited);
    var leader := LeaderFromSchedules(b, slot);
    if leader.Some? {
      assert (known + [leader.value])[..|known|] == known;
    }
  }
}
