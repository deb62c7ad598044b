/** The geyser slot tracker: slot statuses and block metadata arrive in any order; block metadata
    is passed on once per commitment level, as soon as both are known. */
module SlotTracking {
  import opened Types
  import opened Commitment

  datatype SlotStatus =
    | SlotProcessed
    | SlotConfirmed
    | SlotFinalized
    | SlotFirstShredReceived
    | SlotCompleted
    | SlotCreatedBank
    | SlotDead

  /** The status of a wire code; unknown codes count as the first shred. */
  function StatusOf(code: int): SlotStatus {
    match code
    case 0 => SlotProcessed
    case 1 => SlotConfirmed
    case 2 => SlotFinalized
    case 3 => SlotFirstShredReceived
    case 4 => SlotCompleted
    case 5 => SlotCreatedBank
    case 6 => SlotDead
    case _ => SlotFirstShredReceived
  }

  function CommitmentOf(status: SlotStatus): Option<CommitmentLevel> {
    match status
    case SlotProcessed => Some(Processed)
    case SlotConfirmed => Some(Confirmed)
    case SlotFinalized => Some(Finalized)
    case _ => None
  }

  // ---------------------------------------------------------------- the bitmask

  function Bit(status: SlotStatus): bv8 {
    match status
    case SlotProcessed => 1
    case SlotConfirmed => 2
    case SlotFinalized => 4
    case SlotFirstShredReceived => 8
    case SlotCompleted => 16
    case SlotCreatedBank => 32
    case SlotDead => 64
  }

  function Mark(mask: bv8, status: SlotStatus): bv8 {
    mask | Bit(status)
  }

  predicate HasSeen(mask: bv8, status: SlotStatus) {
    mask & Bit(status) != 0
  }

  /** The set of statuses a mask stands for. */
  ghost function Seen(mask: bv8): iset<SlotStatus> {
    iset status | HasSeen(mask, status)
  }

  lemma MarkBits(mask: bv8, a: bv8, b: bv8)
    requires a in {1, 2, 4, 8, 16, 32, 64} && b in {1, 2, 4, 8, 16, 32, 64}
    ensures (mask | a) & b != 0 <==> a == b || mask & b != 0
  {
  }

  /** Marking a status adds exactly that status to the set, and the empty mask is the empty set. */
  lemma MaskIsSet(mask: bv8, status: SlotStatus)
    ensures Seen(Mark(mask, status)) == Seen(mask) + iset{status}
    ensures Seen(0) == iset{}
  {
    forall other ensures other in Seen(Mark(mask, status)) <==> other in Seen(mask) || other == status {
      MarkBits(mask, Bit(status), Bit(other));
    }
  }

  // ---------------------------------------------------------------- the handlers

  datatype Info = Info(statuses: bv8, height: nat, hash: Hash, hasMeta: bool)

  datatype Tracker = Tracker(slots: map<nat, Info>, emitted: seq<BlockMeta>)

  datatype Message =
    | SlotUpdate(slot: nat, code: int)
    | MetaUpdate(slot: nat, hash: Option<Hash>, height: Option<nat>)

  datatype Outcome = Ok | MissingBlockHeight | InvalidBlockhash

  const NO_INFO := Info(0, 0, Hash(0), false)

  function InfoAt(slots: map<nat, Info>, slot: nat): Info {
    if slot in slots then slots[slot] else NO_INFO
  }

  /** What a status update passes on. */
  function UpdateEmits(slot: nat, info: Info, status: SlotStatus): seq<BlockMeta> {
    if info.hasMeta && CommitmentOf(status).Some? then [BlockMeta(slot, info.height, info.hash, CommitmentOf(status).value)] else []
  }

  function SplitOff(slots: map<nat, Info>, slot: nat): map<nat, Info> {
    map s | s in slots && s >= slot :: slots[s]
  }

  function HandleSlotUpdate(t: Tracker, slot: nat, code: int): Tracker {
    var status := StatusOf(code);
    var info := InfoAt(t.slots, slot);
    var slots := t.slots[slot := info.(statuses := Mark(info.statuses, status))];
    Tracker(if status.SlotFinalized? then SplitOff(slots, slot) else slots, t.emitted + UpdateEmits(slot, info, status))
  }

  function SeenEmits(slot: nat, info: Info, status: SlotStatus): seq<BlockMeta> {
    if HasSeen(info.statuses, status) && CommitmentOf(status).Some? then
      [BlockMeta(slot, info.height, info.hash, CommitmentOf(status).value)] else []
  }

  function HandleBlockMeta(t: Tracker, slot: nat, hash: Hash, height: nat): Tracker {
    var info := InfoAt(t.slots, slot).(height := height, hash := hash, hasMeta := true);
    Tracker(t.slots[slot := info],
            t.emitted + SeenEmits(slot, info, SlotProcessed) + SeenEmits(slot, info, SlotConfirmed) + SeenEmits(slot, info, SlotFinalized))
  }

  function Check(m: Message): Outcome {
    match m
    case MetaUpdate(_, hash, height) => if height.None? then MissingBlockHeight else if hash.None? then InvalidBlockhash else Ok
    case _ => Ok
  }

  function Step(t: Tracker, m: Message): Tracker {
    match m
    case SlotUpdate(slot, code) => HandleSlotUpdate(t, slot, code)
    case MetaUpdate(slot, hash, height) => if Check(m).Ok? then HandleBlockMeta(t, slot, hash.value, height.value) else t
  }

  function Handled(msgs: seq<Message>): Tracker {
    if msgs == [] then Tracker(map[], []) else Step(Handled(msgs[..|msgs| - 1]), msgs[|msgs| - 1])
  }

  // ---------------------------------------------------------------- what is emitted for one slot

  ghost predicate IsMeta(m: Message, slot: nat) {
    m.MetaUpdate? && m.slot == slot && Check(m).Ok?
  }

  ghost predicate IsUpdate(m: Message, slot: nat, level: CommitmentLevel) {
    m.SlotUpdate? && m.slot == slot && CommitmentOf(StatusOf(m.code)) == Some(level)
  }

  ghost predicate Concerns(m: Message, slot: nat) {
    IsMeta(m, slot) || (m.SlotUpdate? && m.slot == slot)
  }

  ghost predicate FinalizesAbove(m: Message, slot: nat) {
    m.SlotUpdate? && m.slot > slot && StatusOf(m.code).SlotFinalized?
  }

  ghost function Metas(msgs: seq<Message>, slot: nat): nat {
    if msgs == [] then 0 else Metas(msgs[..|msgs| - 1], slot) + if IsMeta(msgs[|msgs| - 1], slot) then 1 else 0
  }

  ghost function Updates(msgs: seq<Message>, slot: nat, level: CommitmentLevel): nat {
    if msgs == [] then 0 else Updates(msgs[..|msgs| - 1], slot, level) + if IsUpdate(msgs[|msgs| - 1], slot, level) then 1 else 0
  }

  /** While messages for the slot may still come, no higher slot is finalized after the first. */
  ghost predicate Undisturbed(msgs: seq<Message>, slot: nat) {
    forall i, j, k :: 0 <= i < j < k < |msgs| && Concerns(msgs[i], slot) && Concerns(msgs[k], slot) ==> !FinalizesAbove(msgs[j], slot)
  }

  /** The metadata that the messages carry for the slot: all its metadata messages agree on it. */
  ghost predicate MetaIs(msgs: seq<Message>, slot: nat, hash: Hash, height: nat) {
    forall m :: m in msgs && IsMeta(m, slot) ==> m.hash == Some(hash) && m.height == Some(height)
  }

  function LevelStatus(level: CommitmentLevel): SlotStatus {
    match level
    case Processed => SlotProcessed
    case Confirmed => SlotConfirmed
    case Finalized => SlotFinalized
  }

  lemma LevelBits(status: SlotStatus, level: CommitmentLevel)
    ensures CommitmentOf(status) == Some(level) <==> status == LevelStatus(level)
  {
  }

  /** The tracked entry of the slot sums up the messages that came for it. */
  ghost predicate SumsUp(info: Info, msgs: seq<Message>, slot: nat, hash: Hash, height: nat) {
    && (info.hasMeta <==> Metas(msgs, slot) > 0)
    && (info.hasMeta ==> info.hash == hash && info.height == height)
    && (forall level :: HasSeen(info.statuses, LevelStatus(level)) <==> Updates(msgs, slot, level) > 0)
  }

  /** Whether any message for the slot has come yet. */
  ghost predicate Touched(msgs: seq<Message>, slot: nat) {
    exists i :: 0 <= i < |msgs| && Concerns(msgs[i], slot)
  }

  /** How often metadata was passed on for the level, told from the messages alone: when the
      metadata came after an update, and for each update that came after the metadata. */
  ghost function Expected(msgs: seq<Message>, slot: nat, level: CommitmentLevel): nat {
    if msgs == [] then 0
    else
      var before, last := msgs[..|msgs| - 1], msgs[|msgs| - 1];
      Expected(before, slot, level)
      + (if IsMeta(last, slot) && Updates(before, slot, level) > 0 then 1 else 0)
      + (if IsUpdate(last, slot, level) && Metas(before, slot) > 0 then 1 else 0)
  }

  lemma AppendCount(a: seq<BlockMeta>, b: seq<BlockMeta>, x: BlockMeta)
    ensures multiset(a + b)[x] == multiset(a)[x] + multiset(b)[x]
  {
  }

  lemma SeenEmitsOne(slot: nat, info: Info, status: SlotStatus, b: BlockMeta)
    ensures multiset(SeenEmits(slot, info, status))[b]
            == if HasSeen(info.statuses, status) && CommitmentOf(status) == Some(b.commitment) && b == BlockMeta(slot, info.height, info.hash, b.commitment)
               then 1 else 0
  {
  }

  /** Metadata that arrives is passed on once for each level whose status was seen. */
  lemma {:induction false} SeenEmitsCount(slot: nat, info: Info, b: BlockMeta)
    ensures multiset(SeenEmits(slot, info, SlotProcessed) + SeenEmits(slot, info, SlotConfirmed) + SeenEmits(slot, info, SlotFinalized))[b]
            == if b == BlockMeta(slot, info.height, info.hash, b.commitment) && HasSeen(info.statuses, LevelStatus(b.commitment)) then 1 else 0
  {
    hide SeenEmits, HasSeen;
    var p, c, f := SeenEmits(slot, info, SlotProcessed), SeenEmits(slot, info, SlotConfirmed), SeenEmits(slot, info, SlotFinalized);
    AppendCount(p + c, f, b);
    AppendCount(p, c, b);
    SeenEmitsOne(slot, info, SlotProcessed, b);
    SeenEmitsOne(slot, info, SlotConfirmed, b);
    SeenEmitsOne(slot, info, SlotFinalized, b);
  }

  lemma UpdateCounts(t: Tracker, s: nat, code: int, msgs: seq<Message>, slot: nat, hash: Hash, height: nat, level: CommitmentLevel)
    requires s == slot ==> SumsUp(InfoAt(t.slots, slot), msgs, slot, hash, height)
    ensures var b := BlockMeta(slot, height, hash, level);
            multiset(HandleSlotUpdate(t, s, code).emitted)[b] == multiset(t.emitted)[b]
              + (if IsUpdate(SlotUpdate(s, code), slot, level) && Metas(msgs, slot) > 0 then 1 else 0)
  {
    hide Metas, Updates, HasSeen, SplitOff;
    var b := BlockMeta(slot, height, hash, level);
    AppendCount(t.emitted, UpdateEmits(s, InfoAt(t.slots, s), StatusOf(code)), b);
  }

  lemma {:induction false} MetaCounts(t: Tracker, s: nat, h: Hash, ht: nat, msgs: seq<Message>, slot: nat, hash: Hash, height: nat, level: CommitmentLevel)
    requires s == slot ==> SumsUp(InfoAt(t.slots, slot), msgs, slot, hash, height) && h == hash && ht == height
    ensures var b := BlockMeta(slot, height, hash, level);
            multiset(HandleBlockMeta(t, s, h, ht).emitted)[b] == multiset(t.emitted)[b]
              + (if s == slot && Updates(msgs, slot, level) > 0 then 1 else 0)
  {
    hide SeenEmits, HasSeen, Metas, Updates;
    var b := BlockMeta(slot, height, hash, level);
    var info := InfoAt(t.slots, s).(height := ht, hash := h, hasMeta := true);
    var more := SeenEmits(s, info, SlotProcessed) + SeenEmits(s, info, SlotConfirmed) + SeenEmits(s, info, SlotFinalized);
    assert HandleBlockMeta(t, s, h, ht).emitted == t.emitted + more;
    AppendCount(t.emitted, more, b);
    SeenEmitsCount(s, info, b);
  }

  /** What one message adds to the count of `b`, when the entry of the slot sums up the past. */
  lemma {:induction false} StepCounts(t: Tracker, m: Message, msgs: seq<Message>, slot: nat, hash: Hash, height: nat, level: CommitmentLevel)
    requires Concerns(m, slot) ==> SumsUp(InfoAt(t.slots, slot), msgs, slot, hash, height)
    requires IsMeta(m, slot) ==> m.hash == Some(hash) && m.height == Some(height)
    ensures var b := BlockMeta(slot, height, hash, level);
            multiset(Step(t, m).emitted)[b] == multiset(t.emitted)[b]
              + (if IsMeta(m, slot) && Updates(msgs, slot, level) > 0 then 1 else 0)
              + (if IsUpdate(m, slot, level) && Metas(msgs, slot) > 0 then 1 else 0)
  {
    hide HandleSlotUpdate, HandleBlockMeta, SumsUp, Metas, Updates;
    match m
    case SlotUpdate(s, code) => UpdateCounts(t, s, code, msgs, slot, hash, height, level);
    case MetaUpdate(s, h, ht) =>
      if Check(m).Ok? {
        MetaCounts(t, s, h.value, ht.value, msgs, slot, hash, height, level);
      }
  }

  /** How the entry of the slot follows the messages, unless a higher slot is finalized. */
  lemma StepSumsUp(t: Tracker, m: Message, msgs: seq<Message>, slot: nat, hash: Hash, height: nat)
    requires SumsUp(InfoAt(t.slots, slot), msgs, slot, hash, height) && !FinalizesAbove(m, slot)
    requires IsMeta(m, slot) ==> m.hash == Some(hash) && m.height == Some(height)
    ensures SumsUp(InfoAt(Step(t, m).slots, slot), msgs + [m], slot, hash, height)
  {
    hide HasSeen, Mark, StatusOf, CommitmentOf, LevelStatus;
    assert (msgs + [m])[..|msgs|] == msgs;
    if m.SlotUpdate? && m.slot == slot {
      var info := InfoAt(t.slots, slot);
      var status := StatusOf(m.code);
      forall level ensures HasSeen(Mark(info.statuses, status), LevelStatus(level)) <==> Updates(msgs + [m], slot, level) > 0 {
        MarkLevel(info.statuses, status, level);
      }
    }
  }

  lemma MarkLevel(mask: bv8, status: SlotStatus, level: CommitmentLevel)
    ensures HasSeen(Mark(mask, status), LevelStatus(level)) <==> CommitmentOf(status) == Some(level) || HasSeen(mask, LevelStatus(level))
  {
    LevelBits(status, level);
    MarkBits(mask, Bit(status), Bit(LevelStatus(level)));
  }

  /** An entry that is dropped before any message came for the slot was never there. */
  lemma UntouchedSumsUp(t: Tracker, msgs: seq<Message>, slot: nat, hash: Hash, height: nat)
    requires !Touched(msgs, slot) && slot !in t.slots
    ensures SumsUp(InfoAt(t.slots, slot), msgs, slot, hash, height)
  {
    NothingCame(msgs, slot);
  }

  lemma {:induction false} NothingCame(msgs: seq<Message>, slot: nat)
    requires !Touched(msgs, slot)
    ensures Metas(msgs, slot) == 0 && forall level :: Updates(msgs, slot, level) == 0
    decreases |msgs|
  {
    if msgs != [] {
      var n := |msgs| - 1;
      assert forall i :: 0 <= i < n ==> msgs[..n][i] == msgs[i];
      assert !Concerns(msgs[n], slot);
      NothingCame(msgs[..n], slot);
    }
  }

  lemma {:induction false} UntouchedIsAbsent(msgs: seq<Message>, slot: nat)
    requires !Touched(msgs, slot)
    ensures slot !in Handled(msgs).slots
    decreases |msgs|
  {
    if msgs != [] {
      var n := |msgs| - 1;
      assert forall i :: 0 <= i < n ==> msgs[..n][i] == msgs[i];
      assert !Concerns(msgs[n], slot);
      UntouchedIsAbsent(msgs[..n], slot);
    }
  }

  /** After the first `n` messages the entry of the slot sums them up, as long as another message
      for the slot is to come. */
  lemma {:induction false} EntrySumsUp(msgs: seq<Message>, n: nat, k: nat, slot: nat, hash: Hash, height: nat)
    requires n <= k < |msgs| && Concerns(msgs[k], slot)
    requires Undisturbed(msgs, slot) && MetaIs(msgs, slot, hash, height)
    ensures SumsUp(InfoAt(Handled(msgs[..n]).slots, slot), msgs[..n], slot, hash, height)
    decreases n
  {
    if n == 0 {
      assert msgs[..0] == [];
    } else {
      EntrySumsUp(msgs, n - 1, k, slot, hash, height);
      assert msgs[..n] == msgs[..n - 1] + [msgs[n - 1]];
      assert msgs[..n][..n - 1] == msgs[..n - 1];
      assert msgs[n - 1] in msgs;
      if FinalizesAbove(msgs[n - 1], slot) {
        forall i | 0 <= i < n ensures !Concerns(msgs[..n][i], slot) {
          assert msgs[..n][i] == msgs[i];
        }
        UntouchedIsAbsent(msgs[..n], slot);
        UntouchedSumsUp(Handled(msgs[..n]), msgs[..n], slot, hash, height);
      } else {
        StepSumsUp(Handled(msgs[..n - 1]), msgs[n - 1], msgs[..n - 1], slot, hash, height);
      }
    }
  }

  /** The tracker passes on exactly what the messages for the slot ask for, however they are
      interleaved with those of other slots. */
  lemma {:induction false} EmitsExpected(msgs: seq<Message>, n: nat, slot: nat, hash: Hash, height: nat, level: CommitmentLevel)
    requires n <= |msgs| && Undisturbed(msgs, slot) && MetaIs(msgs, slot, hash, height)
    ensures multiset(Handled(msgs[..n]).emitted)[BlockMeta(slot, height, hash, level)] == Expected(msgs[..n], slot, level)
    decreases n
  {
    hide Step, SumsUp, Undisturbed, Metas, Updates;
    if n == 0 {
      assert msgs[..0] == [];
    } else {
      EmitsExpected(msgs, n - 1, slot, hash, height, level);
      assert msgs[..n][..n - 1] == msgs[..n - 1];
      assert msgs[n - 1] in msgs;
      if Concerns(msgs[n - 1], slot) {
        EntrySumsUp(msgs, n - 1, n - 1, slot, hash, height);
      }
      StepCounts(Handled(msgs[..n - 1]), msgs[n - 1], msgs[..n - 1], slot, hash, height, level);
    }
  }

  lemma {:induction false} ExpectedOnce(msgs: seq<Message>, slot: nat, level: CommitmentLevel)
    requires Metas(msgs, slot) <= 1 && Updates(msgs, slot, level) <= 1
    ensures Expected(msgs, slot, level) == if Metas(msgs, slot) == 1 && Updates(msgs, slot, level) == 1 then 1 else 0
    decreases |msgs|
  {
    if msgs != [] {
      ExpectedOnce(msgs[..|msgs| - 1], slot, level);
    }
  }

  /** One metadata message and distinct status updates for a slot, in any order and mixed with
      messages of other slots: the metadata is passed on exactly once for each level whose update
      came, and not for the others. The result does not depend on the order. */
  lemma {:induction false} OncePerCommitment(msgs: seq<Message>, slot: nat, hash: Hash, height: nat, level: CommitmentLevel)
    requires Undisturbed(msgs, slot) && MetaIs(msgs, slot, hash, height)
    requires Metas(msgs, slot) == 1 && Updates(msgs, slot, level) <= 1
    ensures multiset(Handled(msgs).emitted)[BlockMeta(slot, height, hash, level)] == Updates(msgs, slot, level)
  {
    assert msgs[..|msgs|] == msgs;
    EmitsExpected(msgs, |msgs|, slot, hash, height, level);
    ExpectedOnce(msgs, slot, level);
  }

  /** The entry of the slot and all that was emitted for it carry the slot's metadata. */
  ghost predicate Faithful(t: Tracker, slot: nat, hash: Hash, height: nat) {
    && (InfoAt(t.slots, slot).hasMeta ==> InfoAt(t.slots, slot).hash == hash && InfoAt(t.slots, slot).height == height)
    && (forall b :: b in t.emitted && b.slot == slot ==> b.hash == hash && b.height == height)
  }

  lemma StepFaithful(t: Tracker, m: Message, slot: nat, hash: Hash, height: nat)
    requires Faithful(t, slot, hash, height) && (IsMeta(m, slot) ==> m.hash == Some(hash) && m.height == Some(height))
    ensures Faithful(Step(t, m), slot, hash, height)
  {
    hide HasSeen, Mark;
  }

  /** Nothing else is passed on for the slot: whatever is emitted carries its metadata. */
  lemma {:induction false} EmitsNothingElse(msgs: seq<Message>, slot: nat, hash: Hash, height: nat)
    requires MetaIs(msgs, slot, hash, height)
    ensures Faithful(Handled(msgs), slot, hash, height)
    decreases |msgs|
  {
    hide Step, Faithful;
    if msgs == [] {
      NothingIsFaithful(slot, hash, height);
    } else {
      var n := |msgs| - 1;
      assert forall m :: m in msgs[..n] ==> m in msgs;
      assert msgs[n] in msgs;
      EmitsNothingElse(msgs[..n], slot, hash, height);
      StepFaithful(Handled(msgs[..n]), msgs[n], slot, hash, height);
    }
  }

  lemma NothingIsFaithful(slot: nat, hash: Hash, height: nat)
    ensures Faithful(Handled([]), slot, hash, height)
  {
  }

  /** Two such interleavings of the same messages pass on the same for the slot. */
  lemma {:induction false} OrderDoesNotMatter(msgs: seq<Message>, msgs': seq<Message>, slot: nat, hash: Hash, height: nat, level: CommitmentLevel)
    requires Undisturbed(msgs, slot) && Undisturbed(msgs', slot) && multiset(msgs) == multiset(msgs')
    requires MetaIs(msgs, slot, hash, height) && Metas(msgs, slot) == 1 && Updates(msgs, slot, level) <= 1
    ensures var b := BlockMeta(slot, height, hash, level);
            multiset(Handled(msgs).emitted)[b] == multiset(Handled(msgs').emitted)[b]
  {
    CountsOfBag(msgs, msgs', slot, level);
    forall m | m in msgs' ensures m in msgs {
      assert m in multiset(msgs');
      assert m in multiset(msgs);
    }
    OncePerCommitment(msgs, slot, hash, height, level);
    OncePerCommitment(msgs', slot, hash, height, level);
  }

  lemma {:induction false} CountsOfBag(msgs: seq<Message>, msgs': seq<Message>, slot: nat, level: CommitmentLevel)
    requires multiset(msgs) == multiset(msgs')
    ensures Metas(msgs, slot) == Metas(msgs', slot) && Updates(msgs, slot, level) == Updates(msgs', slot, level)
    decreases |msgs|
  {
    if msgs == [] {
      assert |msgs'| == |multiset(msgs')| == 0;
    } else {
      var n := |msgs| - 1;
      var m := msgs[n];
      assert m in multiset(msgs');
      var j :| 0 <= j < |msgs'| && msgs'[j] == m;
      RemoveOne(msgs[..n], msgs'[..j], m, msgs'[j + 1..]) by {
        assert msgs == msgs[..n] + [m] && msgs' == msgs'[..j] + [m] + msgs'[j + 1..];
      }
      assert msgs' == msgs'[..j] + [m] + msgs'[j + 1..];
      CountsOfBag(msgs[..n], msgs'[..j] + msgs'[j + 1..], slot, level);
      CountsOfRest(msgs'[..j], m, msgs'[j + 1..], slot, level);
    }
  }

  lemma RemoveOne(rest: seq<Message>, a: seq<Message>, m: Message, b: seq<Message>)
    requires multiset(rest + [m]) == multiset(a + [m] + b)
    ensures multiset(rest) == multiset(a + b)
  {
    assert multiset(rest) == multiset(rest + [m]) - multiset{m};
    assert multiset(a + b) == multiset(a + [m] + b) - multiset{m};
  }

  lemma {:induction false} CountsOfRest(a: seq<Message>, m: Message, b: seq<Message>, slot: nat, level: CommitmentLevel)
    ensures Metas(a + [m] + b, slot) == Metas(a + b, slot) + if IsMeta(m, slot) then 1 else 0
    ensures Updates(a + [m] + b, slot, level) == Updates(a + b, slot, level) + if IsUpdate(m, slot, level) then 1 else 0
    decreases |b|
  {
    if b == [] {
      assert a + [m] + b == a + [m] && a + b == a && (a + [m])[..|a|] == a;
    } else {
      var k := |b| - 1;
      CountsOfRest(a, m, b[..k], slot, level);
      assert (a + [m] + b)[..|a| + 1 + k] == a + [m] + b[..k];
      assert (a + b)[..|a| + k] == a + b[..k];
    }
  }

  // ---------------------------------------------------------------- the tracker object

  class GeyserSlotTracker {
    var slotTracking: map<nat, Info>
    var blockMetas: seq<BlockMeta>

    ghost function View(): Tracker
      reads this
    {
      Tracker(slotTracking, blockMetas)
    }

    constructor ()
      ensures View() == Handled([])
    {
      slotTracking, blockMetas := map[], [];
    }

    method OnSlotUpdate(slot: nat, code: int)
      modifies this
      ensures View() == Step(old(View()), SlotUpdate(slot, code))
    {
      var status := StatusOf(code);
      var entry := InfoAt(slotTracking, slot);
      slotTracking := slotTracking[slot := entry.(statuses := Mark(entry.statuses, status))];
      if entry.hasMeta {
        var commitment := CommitmentOf(status);
        if commitment.Some? {
          blockMetas := blockMetas + [BlockMeta(slot, entry.height, entry.hash, commitment.value)];
        }
      }
      if status == SlotFinalized {
        slotTracking := SplitOff(slotTracking, slot);
      }
    }

    /** Metadata without a height or with an unreadable blockhash is refused and changes nothing. */
    method OnBlockMeta(slot: nat, hash: Option<Hash>, height: Option<nat>) returns (outcome: Outcome)
      modifies this
      ensures outcome == Check(MetaUpdate(slot, hash, height))
      ensures View() == Step(old(View()), MetaUpdate(slot, hash, height))
    {
      if height.None? {
        return MissingBlockHeight;
      }
      if hash.None? {
        return InvalidBlockhash;
      }
      var entry := InfoAt(slotTracking, slot).(height := height.value, hash := hash.value, hasMeta := true);
      slotTracking := slotTracking[slot := entry];
      EmitSeen(slot, entry);
      outcome := Ok;
    }

    /** Passes the metadata on for every level whose status has been seen already. */
    method EmitSeen(slot: nat, entry: Info)
      modifies this`blockMetas
      ensures blockMetas == old(blockMetas) + SeenEmits(slot, entry, SlotProcessed) + SeenEmits(slot, entry, SlotConfirmed) + SeenEmits(slot, entry, SlotFinalized)
    {
      hide HasSeen;
      var statuses := [SlotProcessed, SlotConfirmed, SlotFinalized];
      for i := 0 to 3
        invariant blockMetas == old(blockMetas) + EmittedFor(slot, entry, statuses[..i])
      {
        assert statuses[..i + 1][..i] == statuses[..i];
        if HasSeen(entry.statuses, statuses[i]) {
          var commitment := CommitmentOf(statuses[i]);
          if commitment.Some? {
            blockMetas := blockMetas + [BlockMeta(slot, entry.height, entry.hash, commitment.value)];
          }
        }
      }
      assert statuses[..3] == statuses;
      AllThree(slot, entry);
    }
  }

  function EmittedFor(slot: nat, info: Info, statuses: seq<SlotStatus>): seq<BlockMeta> {
    if statuses == [] then []
    else EmittedFor(slot, info, statuses[..|statuses| - 1]) + SeenEmits(slot, info, statuses[|statuses| - 1])
  }

  lemma AllThree(slot: nat, info: Info)
    ensures EmittedFor(slot, info, [SlotProcessed, SlotConfirmed, SlotFinalized])
            == SeenEmits(slot, info, SlotProcessed) + SeenEmits(slot, info, SlotConfirmed) + SeenEmits(slot, info, SlotFinalized)
  {
    hide SeenEmits;
    var one, two, three := [SlotProcessed], [SlotProcessed, SlotConfirmed], [SlotProcessed, SlotConfirmed, SlotFinalized];
    assert one[..0] == [] && two[..1] == one && three[..2] == two;
    assert EmittedFor(slot, info, one) == SeenEmits(slot, info, SlotProcessed);
    assert EmittedFor(slot, info, two) == EmittedFor(slot, info, one) + SeenEmits(slot, info, SlotConfirmed);
  }
}
