/** Where watched transactions landed: which signatures are in which slot, and at which commitment
    level each slot is. Slots are pruned when a block is finalized. */
module RootedTransactions {
  import opened Types
  import opened Commitment

  datatype SlotInfo = SlotInfo(transactions: set<Signature>, meta: Option<BlockMeta>)

  datatype Tracker = Tracker(slots: map<nat, SlotInfo>, transactions: map<Signature, nat>, watched: set<Signature>)

  datatype Event =
    | TransactionReceived(slot: nat, sig: Signature)
    | BlockMetaUpdate(meta: BlockMeta)
    | Subscribed(sig: Signature)
    | Unsubscribed(sig: Signature)

  function SlotAt(t: Tracker, slot: nat): SlotInfo {
    if slot in t.slots then t.slots[slot] else SlotInfo({}, None)
  }

  function Receive(t: Tracker, slot: nat, sig: Signature): Tracker {
    var info := SlotAt(t, slot);
    t.(slots := t.slots[slot := info.(transactions := info.transactions + {sig})],
       transactions := if sig in info.transactions then t.transactions else t.transactions[sig := slot])
  }

  predicate Keeps(info: SlotInfo, height: nat, slot: nat) {
    info.meta.Some? ==> Retains(info.meta.value, height, slot)
  }

  function Removed(slots: map<nat, SlotInfo>, height: nat, slot: nat): set<Signature> {
    set s, sig | s in slots && !Keeps(slots[s], height, slot) && sig in slots[s].transactions :: sig
  }

  function Kept(slots: map<nat, SlotInfo>, height: nat, slot: nat): map<nat, SlotInfo> {
    map s | s in slots && Keeps(slots[s], height, slot) :: slots[s]
  }

  function Cleanup(t: Tracker, height: nat, slot: nat): Tracker {
    t.(slots := Kept(t.slots, height, slot), transactions := t.transactions - Removed(t.slots, height, slot))
  }

  function SetMeta(t: Tracker, meta: BlockMeta): Tracker {
    t.(slots := t.slots[meta.slot := SlotAt(t, meta.slot).(meta := Some(meta))])
  }

  function UpdateMeta(t: Tracker, meta: BlockMeta): Tracker {
    var u := SetMeta(t, meta);
    if meta.commitment.Finalized? then Cleanup(u, meta.height, meta.slot) else u
  }

  function Step(t: Tracker, ev: Event): Tracker {
    match ev
    case TransactionReceived(slot, sig) => Receive(t, slot, sig)
    case BlockMetaUpdate(meta) => UpdateMeta(t, meta)
    case Subscribed(sig) => t.(watched := t.watched + {sig})
    case Unsubscribed(sig) => t.(watched := t.watched - {sig})
  }

  /** The signatures whose watcher an event notifies, and the level it names. */
  function Notified(t: Tracker, ev: Event): set<Signature> {
    match ev
    case TransactionReceived(slot, sig) =>
      if sig !in SlotAt(t, slot).transactions && SlotAt(t, slot).meta.Some? && sig in t.watched then {sig} else {}
    case BlockMetaUpdate(meta) => SlotAt(t, meta.slot).transactions * t.watched
    case _ => {}
  }

  function Level(t: Tracker, ev: Event): CommitmentLevel {
    match ev
    case TransactionReceived(slot, _) => if SlotAt(t, slot).meta.Some? then SlotAt(t, slot).meta.value.commitment else Processed
    case BlockMetaUpdate(meta) => meta.commitment
    case _ => Processed
  }

  /** The commitment of a transaction, as the receiver looks it up. */
  function Lookup(t: Tracker, sig: Signature): Option<CommitmentLevel> {
    if sig in t.transactions && t.transactions[sig] in t.slots && t.slots[t.transactions[sig]].meta.Some? then
      Some(t.slots[t.transactions[sig]].meta.value.commitment)
    else None
  }

  // ---------------------------------------------------------------- runs

  /** A tracker together with the last notification of each signature. */
  datatype Traced = Traced(tracker: Tracker, notes: map<Signature, CommitmentLevel>)

  function Noted(notes: map<Signature, CommitmentLevel>, sigs: set<Signature>, level: CommitmentLevel): map<Signature, CommitmentLevel> {
    notes + map sig | sig in sigs :: level
  }

  function Next(x: Traced, ev: Event): Traced {
    Traced(Step(x.tracker, ev), Noted(x.notes, Notified(x.tracker, ev), Level(x.tracker, ev)))
  }

  /** The state after the events `evs`, for a set of signatures watched from the beginning. */
  function Trace(watched: set<Signature>, evs: seq<Event>): Traced {
    if evs == [] then Traced(Tracker(map[], map[], watched), map[])
    else
      Next(Trace(watched, evs[..|evs| - 1]), evs[|evs| - 1])
  }

  // ---------------------------------------------------------------- the lookup

  /** Whatever the index says of a signature, the slot is tracked and contains it. */
  ghost predicate Sound(t: Tracker) {
    forall sig :: sig in t.transactions ==> t.transactions[sig] in t.slots && sig in t.slots[t.transactions[sig]].transactions
  }

  lemma StepSound(t: Tracker, ev: Event)
    requires Sound(t)
    ensures Sound(Step(t, ev))
  {
    if ev.BlockMetaUpdate? && ev.meta.commitment.Finalized? {
      var u := SetMeta(t, ev.meta);
      assert Sound(u);
      CleanupSound(u, ev.meta.height, ev.meta.slot);
    }
  }

  lemma CleanupSound(t: Tracker, height: nat, slot: nat)
    requires Sound(t)
    ensures Sound(Cleanup(t, height, slot))
  {
    var u := Cleanup(t, height, slot);
    forall sig | sig in u.transactions ensures u.transactions[sig] in u.slots && sig in u.slots[u.transactions[sig]].transactions {
      var s := t.transactions[sig];
      assert s in t.slots && sig in t.slots[s].transactions;
      assert sig !in Removed(t.slots, height, slot);
    }
  }

  lemma {:induction false} IndexIsSound(watched: set<Signature>, evs: seq<Event>)
    ensures Sound(Trace(watched, evs).tracker)
    decreases |evs|
  {
    if evs != [] {
      IndexIsSound(watched, evs[..|evs| - 1]);
      StepSound(Trace(watched, evs[..|evs| - 1]).tracker, evs[|evs| - 1]);
    }
  }

  /** The signature is received in no slot but `slot`. */
  ghost predicate OnlyIn(evs: seq<Event>, sig: Signature, slot: nat) {
    forall i :: 0 <= i < |evs| && evs[i].TransactionReceived? && evs[i].sig == sig ==> evs[i].slot == slot
  }

  ghost predicate NeverUnsubscribed(evs: seq<Event>, sig: Signature) {
    forall i :: 0 <= i < |evs| ==> evs[i] != Unsubscribed(sig)
  }

  /** What holds of a signature received in one slot only. */
  ghost predicate InOneSlot(t: Tracker, sig: Signature, slot: nat) {
    && (forall s :: s in t.slots && sig in t.slots[s].transactions ==> s == slot)
    && (sig in t.transactions <==> slot in t.slots && sig in t.slots[slot].transactions)
    && (sig in t.transactions ==> t.transactions[sig] == slot)
  }

  lemma StepInOneSlot(t: Tracker, ev: Event, sig: Signature, slot: nat)
    requires InOneSlot(t, sig, slot) && (ev.TransactionReceived? && ev.sig == sig ==> ev.slot == slot)
    ensures InOneSlot(Step(t, ev), sig, slot)
  {
    if ev.BlockMetaUpdate? {
      var u := SetMeta(t, ev.meta);
      assert InOneSlot(u, sig, slot);
      if ev.meta.commitment.Finalized? {
        CleanupInOneSlot(u, ev.meta.height, ev.meta.slot, sig, slot);
      }
    }
  }

  lemma CleanupInOneSlot(t: Tracker, height: nat, at: nat, sig: Signature, slot: nat)
    requires InOneSlot(t, sig, slot)
    ensures InOneSlot(Cleanup(t, height, at), sig, slot)
  {
  }

  /** For a signature received in one slot only, the index finds it exactly as long as that slot
      is tracked and contains it. */
  lemma {:induction false} IndexIsComplete(watched: set<Signature>, evs: seq<Event>, sig: Signature, slot: nat)
    requires OnlyIn(evs, sig, slot)
    ensures InOneSlot(Trace(watched, evs).tracker, sig, slot)
    decreases |evs|
  {
    if evs != [] {
      var n := |evs| - 1;
      IndexIsComplete(watched, evs[..n], sig, slot);
      StepInOneSlot(Trace(watched, evs[..n]).tracker, evs[n], sig, slot);
    }
  }

  lemma {:induction false} StaysWatched(watched: set<Signature>, evs: seq<Event>, sig: Signature)
    requires sig in watched && NeverUnsubscribed(evs, sig)
    ensures sig in Trace(watched, evs).tracker.watched
    decreases |evs|
  {
    if evs != [] {
      var n := |evs| - 1;
      assert evs[n] != Unsubscribed(sig);
      StaysWatched(watched, evs[..n], sig);
    }
  }

  ghost predicate Told(x: Traced, sig: Signature) {
    Lookup(x.tracker, sig).Some? ==> sig in x.notes && x.notes[sig] == Lookup(x.tracker, sig).value
  }

  /** Pruning one of two slots makes the index forget a signature that the other still contains;
      a signature that is in no pruned slot keeps its entry. */
  lemma PruningForgets(t: Tracker, height: nat, slot: nat, sig: Signature)
    requires Sound(t) && sig in t.transactions
    ensures sig in Cleanup(t, height, slot).transactions
            <==> forall s :: s in t.slots && sig in t.slots[s].transactions ==> Keeps(t.slots[s], height, slot)
  {
  }

  /** The event tells the watcher of the signature about a slot. */
  ghost predicate Concerns(t: Tracker, ev: Event, sig: Signature) {
    match ev
    case TransactionReceived(slot, s) => s == sig && sig !in SlotAt(t, slot).transactions
    case BlockMetaUpdate(meta) => sig in SlotAt(t, meta.slot).transactions
    case _ => false
  }

  /** The event reports the level of one slot while the index points to another slot of the
      signature, of a different level, and its own pruning does not remove the entry. */
  ghost predicate Misleads(t: Tracker, ev: Event, sig: Signature) {
    && ev.BlockMetaUpdate? && sig in SlotAt(t, ev.meta.slot).transactions
    && Lookup(t, sig).Some? && t.transactions[sig] != ev.meta.slot && Lookup(t, sig).value != ev.meta.commitment
    && (ev.meta.commitment.Finalized? ==> Survives(t.slots, ev.meta, sig))
  }

  /** Finalizing the block prunes no other slot that contains the signature. */
  ghost predicate Survives(slots: map<nat, SlotInfo>, meta: BlockMeta, sig: Signature) {
    forall s :: s in slots && s != meta.slot && sig in slots[s].transactions ==> Keeps(slots[s], meta.height, meta.slot)
  }

  /** For a watched signature, one event: after an event that concerns it, the last notification
      is the lookup if and only if the event does not mislead; any other event keeps it as it
      was, as long as the lookup still finds the signature. */
  lemma StepTold(x: Traced, ev: Event, sig: Signature)
    requires Sound(x.tracker) && sig in x.tracker.watched
    ensures Concerns(x.tracker, ev, sig) ==> (Told(Next(x, ev), sig) <==> !Misleads(x.tracker, ev, sig))
    ensures !Concerns(x.tracker, ev, sig) ==>
            (Told(Next(x, ev), sig) <==> Lookup(Step(x.tracker, ev), sig).None? || Told(x, sig))
    ensures !Concerns(x.tracker, ev, sig) && Lookup(Step(x.tracker, ev), sig).Some? ==> Lookup(x.tracker, sig) == Lookup(Step(x.tracker, ev), sig)
  {
    if ev.BlockMetaUpdate? {
      hide Survives, Cleanup;
      var u := SetMeta(x.tracker, ev.meta);
      MetaLookup(x.tracker, ev.meta, sig);
      if ev.meta.commitment.Finalized? {
        CleanupLookup(u, ev.meta, sig);
      }
    }
  }

  /** Setting the metadata of a slot changes the lookup of exactly the signatures the index puts there. */
  lemma MetaLookup(t: Tracker, meta: BlockMeta, sig: Signature)
    requires Sound(t)
    ensures var u := SetMeta(t, meta);
            && Sound(u) && (Survives(u.slots, meta, sig) <==> Survives(t.slots, meta, sig))
            && Lookup(u, sig) == if sig in t.transactions && t.transactions[sig] == meta.slot then Some(meta.commitment) else Lookup(t, sig)
  {
    var u := SetMeta(t, meta);
    assert forall s :: s in t.slots && s != meta.slot ==> s in u.slots && u.slots[s] == t.slots[s];
    assert forall s :: s in u.slots && s != meta.slot ==> s in t.slots && u.slots[s] == t.slots[s];
  }

  /** The pruning after a finalized block leaves the lookup or makes it empty. */
  lemma CleanupLookup(u: Tracker, meta: BlockMeta, sig: Signature)
    requires Sound(u) && meta.commitment.Finalized? && meta.slot in u.slots && u.slots[meta.slot].meta == Some(meta)
    ensures var w := Cleanup(u, meta.height, meta.slot);
            if sig in u.transactions && Survives(u.slots, meta, sig) then Lookup(w, sig) == Lookup(u, sig) else Lookup(w, sig) == None
  {
    if sig in u.transactions {
      PruningForgets(u, meta.height, meta.slot, sig);
      CleanupSound(u, meta.height, meta.slot);
    }
  }

  /** The last event that concerned the signature did not mislead. */
  ghost predicate LastIsTrue(watched: set<Signature>, evs: seq<Event>, sig: Signature)
    decreases |evs|
  {
    if evs == [] then true
    else
      var n := |evs| - 1;
      var t := Trace(watched, evs[..n]).tracker;
      if Concerns(t, evs[n], sig) then !Misleads(t, evs[n], sig) else LastIsTrue(watched, evs[..n], sig)
  }

  /** For a signature watched throughout, the last notification is the commitment the lookup
      returns if and only if the lookup returns none or the last event that concerned the
      signature did not mislead. */
  lemma {:induction false} ToldExactly(watched: set<Signature>, evs: seq<Event>, sig: Signature)
    requires sig in watched && NeverUnsubscribed(evs, sig)
    ensures Told(Trace(watched, evs), sig) <==>
            Lookup(Trace(watched, evs).tracker, sig).None? || LastIsTrue(watched, evs, sig)
    decreases |evs|
  {
    if evs != [] {
      hide Step, Lookup, Misleads, Concerns, Sound, Notified, Level, Noted;
      var n := |evs| - 1;
      ToldExactly(watched, evs[..n], sig);
      StaysWatched(watched, evs[..n], sig);
      IndexIsSound(watched, evs[..n]);
      StepTold(Trace(watched, evs[..n]), evs[n], sig);
    }
  }

  /** The last notification is the lookup after `n` events of the run. */
  ghost predicate ToldAt(watched: set<Signature>, evs: seq<Event>, sig: Signature, n: nat)
    requires n <= |evs|
  {
    Told(Trace(watched, evs[..n]), sig)
  }

  /** Event `n` of the run misleads. */
  ghost predicate MisledAt(watched: set<Signature>, evs: seq<Event>, sig: Signature, n: nat)
    requires n < |evs|
  {
    Misleads(Trace(watched, evs[..n]).tracker, evs[n], sig)
  }

  lemma NextTold(watched: set<Signature>, evs: seq<Event>, sig: Signature, n: nat)
    requires sig in watched && NeverUnsubscribed(evs, sig) && n < |evs|
    ensures MisledAt(watched, evs, sig, n) ==> !ToldAt(watched, evs, sig, n + 1)
    ensures ToldAt(watched, evs, sig, n) && !MisledAt(watched, evs, sig, n) ==> ToldAt(watched, evs, sig, n + 1)
  {
    hide Step, Lookup, Misleads, Concerns, Sound, Notified, Level, Noted, Told;
    StaysWatched(watched, evs[..n], sig);
    IndexIsSound(watched, evs[..n]);
    assert evs[..n + 1][..n] == evs[..n] && evs[..n + 1][n] == evs[n];
    StepTold(Trace(watched, evs[..n]), evs[n], sig);
    MisleadsConcerns(Trace(watched, evs[..n]).tracker, evs[n], sig);
  }

  lemma {:induction false} ToldThroughout(watched: set<Signature>, evs: seq<Event>, sig: Signature, m: nat)
    requires sig in watched && NeverUnsubscribed(evs, sig) && m <= |evs|
    ensures (forall n :: 0 <= n <= m ==> ToldAt(watched, evs, sig, n)) <==> (forall n :: 0 <= n < m ==> !MisledAt(watched, evs, sig, n))
    decreases m
  {
    if m == 0 {
      assert evs[..0] == [];
      assert ToldAt(watched, evs, sig, 0);
    } else {
      hide ToldAt, MisledAt;
      ToldThroughout(watched, evs, sig, m - 1);
      NextTold(watched, evs, sig, m - 1);
    }
  }

  /** The last notification is the lookup at all times of a run if and only if no event of the run
      misleads. */
  lemma AlwaysTold(watched: set<Signature>, evs: seq<Event>, sig: Signature)
    requires sig in watched && NeverUnsubscribed(evs, sig)
    ensures (forall n :: 0 <= n <= |evs| ==> ToldAt(watched, evs, sig, n)) <==> (forall n :: 0 <= n < |evs| ==> !MisledAt(watched, evs, sig, n))
  {
    ToldThroughout(watched, evs, sig, |evs|);
  }

  lemma MisleadsConcerns(t: Tracker, ev: Event, sig: Signature)
    ensures Misleads(t, ev, sig) ==> Concerns(t, ev, sig)
  {
  }

  /** For a signature received in one slot and watched throughout, the last notification is the
      commitment the lookup returns, whenever it returns one. */
  lemma LastNotificationIsLookup(watched: set<Signature>, evs: seq<Event>, sig: Signature, slot: nat)
    requires sig in watched && OnlyIn(evs, sig, slot) && NeverUnsubscribed(evs, sig)
    ensures Told(Trace(watched, evs), sig)
  {
    hide Told, Step, Trace;
    forall n | 0 <= n < |evs| ensures !MisledAt(watched, evs, sig, n) {
      IndexIsComplete(watched, evs[..n], sig, slot);
    }
    AlwaysTold(watched, evs, sig);
    assert ToldAt(watched, evs, sig, |evs|) && evs[..|evs|] == evs;
  }

  /** A signature in two slots breaks both: after the events of `TwoSlots` the last notification
      says it is finalized while the lookup finds the other slot, which is only processed. */
  lemma TwoSlotsDisagree(sig: Signature, hash: Hash)
    ensures var x := Trace({sig}, TwoSlots(sig, hash));
            && sig in x.tracker.watched && sig in x.notes
            && x.notes[sig] == Finalized && Lookup(x.tracker, sig) == Some(Processed)
  {
    var evs := TwoSlots(sig, hash);
    assert evs[..3] == [evs[0], evs[1], evs[2]];
    OneProcessed(sig, hash);
    var t := Trace({sig}, evs[..3]).tracker;
    var u := SetMeta(t, BlockMeta(1, 1, hash, Finalized));
    assert Keeps(u.slots[1], 1, 1) && Keeps(u.slots[5], 1, 1);
    assert Kept(u.slots, 1, 1) == u.slots && Removed(u.slots, 1, 1) == {};
  }

  lemma OneProcessed(sig: Signature, hash: Hash)
    ensures var evs := TwoSlots(sig, hash);
            var t := Trace({sig}, [evs[0], evs[1], evs[2]]).tracker;
            t == Tracker(map[1 := SlotInfo({sig}, None), 5 := SlotInfo({sig}, Some(BlockMeta(5, 5, hash, Processed)))], map[sig := 5], {sig})
  {
    var evs := TwoSlots(sig, hash);
    assert [evs[0], evs[1], evs[2]][..2] == [evs[0], evs[1]];
    BothReceived(sig, hash);
  }

  function TwoSlots(sig: Signature, hash: Hash): seq<Event> {
    [TransactionReceived(1, sig), TransactionReceived(5, sig),
     BlockMetaUpdate(BlockMeta(5, 5, hash, Processed)), BlockMetaUpdate(BlockMeta(1, 1, hash, Finalized))]
  }

  lemma BothReceived(sig: Signature, hash: Hash)
    ensures var t := Trace({sig}, [TransactionReceived(1, sig), TransactionReceived(5, sig)]).tracker;
            t == Tracker(map[1 := SlotInfo({sig}, None), 5 := SlotInfo({sig}, None)], map[sig := 5], {sig})
  {
    var e1, e2 := TransactionReceived(1, sig), TransactionReceived(5, sig);
    assert [e1, e2][..1] == [e1] && [e1][..0] == [];
    assert Trace({sig}, []) == Traced(Tracker(map[], map[], {sig}), map[]);
    var t1 := Step(Trace({sig}, []).tracker, e1);
    assert {} + {sig} == {sig};
    assert t1 == Tracker(map[1 := SlotInfo({sig}, None)], map[sig := 1], {sig});
    assert Trace({sig}, [e1]).tracker == t1;
  }

  // ---------------------------------------------------------------- pruning

  ghost predicate IsFinalized(info: SlotInfo) {
    info.meta.Some? && info.meta.value.commitment.Finalized?
  }

  ghost function FinalizedHeights(slots: map<nat, SlotInfo>): map<nat, nat> {
    map s | s in slots && IsFinalized(slots[s]) :: slots[s].meta.value.height
  }

  /** Finalized heights do not decrease along the run. */
  ghost predicate FinalizedInOrder(evs: seq<Event>) {
    forall i, j :: 0 <= i < j < |evs| && FinalizedEvent(evs[i]) && FinalizedEvent(evs[j]) ==> evs[i].meta.height <= evs[j].meta.height
  }

  ghost predicate FinalizedEvent(ev: Event) {
    ev.BlockMetaUpdate? && ev.meta.commitment.Finalized?
  }

  ghost function LastFinalized(evs: seq<Event>): nat {
    if evs == [] then 0
    else if FinalizedEvent(evs[|evs| - 1]) then evs[|evs| - 1].meta.height
    else LastFinalized(evs[..|evs| - 1])
  }

  lemma {:induction false} LastIsEarlier(evs: seq<Event>, h: nat)
    requires forall i :: 0 <= i < |evs| && FinalizedEvent(evs[i]) ==> evs[i].meta.height <= h
    ensures LastFinalized(evs) <= h
    decreases |evs|
  {
    if evs != [] && !FinalizedEvent(evs[|evs| - 1]) {
      LastIsEarlier(evs[..|evs| - 1], h);
    }
  }

  lemma StepInWindow(t: Tracker, ev: Event, top: nat)
    requires InWindow(FinalizedHeights(t.slots), top)
    ensures !FinalizedEvent(ev) ==> InWindow(FinalizedHeights(Step(t, ev).slots), top)
    ensures FinalizedEvent(ev) && top <= ev.meta.height ==> InWindow(FinalizedHeights(Step(t, ev).slots), ev.meta.height)
  {
    var before, after := FinalizedHeights(t.slots), FinalizedHeights(Step(t, ev).slots);
    forall s | s in after && !FinalizedEvent(ev) ensures s in before && after[s] == before[s] {
    }
    forall s | s in after && FinalizedEvent(ev) && s != ev.meta.slot ensures s in before && after[s] == before[s] {
    }
  }

  lemma {:induction false} FinalizedInWindow(watched: set<Signature>, evs: seq<Event>)
    requires FinalizedInOrder(evs)
    ensures InWindow(FinalizedHeights(Trace(watched, evs).tracker.slots), LastFinalized(evs))
    decreases |evs|
  {
    hide InWindow;
    if evs == [] {
      NothingFinalized(watched);
    } else {
      var n := |evs| - 1;
      assert forall i :: 0 <= i < n ==> evs[..n][i] == evs[i];
      FinalizedInWindow(watched, evs[..n]);
      StepInWindow(Trace(watched, evs[..n]).tracker, evs[n], LastFinalized(evs[..n]));
      if FinalizedEvent(evs[n]) {
        LastIsEarlier(evs[..n], evs[n].meta.height);
      }
    }
  }

  lemma NothingFinalized(watched: set<Signature>)
    ensures InWindow(FinalizedHeights(Trace(watched, []).tracker.slots), 0)
  {
  }

  /** When finalized heights never decrease and no two finalized slots have the same height, at
      most 300 finalized slots are tracked at any time. */
  lemma FinalizedSlotsAreBounded(watched: set<Signature>, evs: seq<Event>)
    requires FinalizedInOrder(evs)
    requires DistinctHeights(FinalizedHeights(Trace(watched, evs).tracker.slots))
    ensures |FinalizedHeights(Trace(watched, evs).tracker.slots)| <= MAX_RECENT_BLOCKHASHES
  {
    FinalizedInWindow(watched, evs);
    AtMostRecent(FinalizedHeights(Trace(watched, evs).tracker.slots), LastFinalized(evs));
  }

  // ---------------------------------------------------------------- the state machine object

  class RootedTxStateMachine {
    var slots: map<nat, SlotInfo>
    var transactions: map<Signature, nat>
    var watchedSignatures: set<Signature>

    ghost function View(): Tracker
      reads this
    {
      Tracker(slots, transactions, watchedSignatures)
    }

    constructor ()
      ensures View() == Tracker(map[], map[], {})
    {
      slots, transactions, watchedSignatures := map[], map[], {};
    }

    method SubscribeSignature(signature: Signature)
      modifies this`watchedSignatures
      ensures View() == Step(old(View()), Subscribed(signature))
    {
      watchedSignatures := watchedSignatures + {signature};
    }

    method UnsubscribeSignature(signature: Signature)
      modifies this`watchedSignatures
      ensures View() == Step(old(View()), Unsubscribed(signature))
    {
      watchedSignatures := watchedSignatures - {signature};
    }

    method GetTransactionCommitment(signature: Signature) returns (r: Option<CommitmentLevel>)
      ensures r == Lookup(View(), signature)
    {
      if signature !in transactions || transactions[signature] !in slots {
        return None;
      }
      var info := slots[transactions[signature]];
      r := if info.meta.Some? then Some(info.meta.value.commitment) else None;
    }

    /** Notifies once for each watched signature of the slot, in whatever order the set yields. */
    method NotifyWatchers(signatures: set<Signature>, commitment: CommitmentLevel) returns (effects: seq<(Signature, CommitmentLevel)>)
      ensures NoDuplicates(effects)
      ensures forall e :: e in effects <==> e.0 in signatures * watchedSignatures && e.1 == commitment
    {
      effects := [];
      var rest := signatures;
      while rest != {}
        invariant rest <= signatures && NoDuplicates(effects)
        invariant forall e :: e in effects <==> e.0 in (signatures - rest) * watchedSignatures && e.1 == commitment
        decreases |rest|
      {
        var signature :| signature in rest;
        if signature in watchedSignatures {
          effects := effects + [(signature, commitment)];
        }
        rest := rest - {signature};
      }
    }

    /** The retain step: keeps a slot or drops it with all its signatures. */
    method CleanupOldSlots(height: nat, slot: nat)
      modifies this`slots, this`transactions
      ensures View() == Cleanup(old(View()), height, slot)
    {
      var removed: set<Signature> := {};
      var kept: map<nat, SlotInfo> := map[];
      var rest := slots.Keys;
      while rest != {}
        invariant rest <= slots.Keys
        invariant unchanged(this)
        invariant removed == Removed(slots - rest, height, slot)
        invariant kept == Kept(slots - rest, height, slot)
        decreases |rest|
      {
        var s :| s in rest;
        RetainOneMore(slots, rest, s, height, slot);
        if Keeps(slots[s], height, slot) {
          kept := kept[s := slots[s]];
        } else {
          removed := removed + slots[s].transactions;
        }
        rest := rest - {s};
      }
      assert slots - {} == slots;
      assert removed == Removed(slots, height, slot) && kept == Kept(slots, height, slot);
      slots := kept;
      transactions := transactions - removed;
    }

    method ProcessTransaction(slot: nat, signature: Signature) returns (effects: seq<(Signature, CommitmentLevel)>)
      modifies this`slots, this`transactions
      ensures View() == Receive(old(View()), slot, signature)
      ensures NoDuplicates(effects)
      ensures var ev := TransactionReceived(slot, signature);
              forall e :: e in effects <==> e.0 in Notified(old(View()), ev) && e.1 == Level(old(View()), ev)
    {
      effects := [];
      var entry := if slot in slots then slots[slot] else SlotInfo({}, None);
      slots := slots[slot := entry.(transactions := entry.transactions + {signature})];
      if signature !in entry.transactions {
        if entry.meta.Some? && signature in watchedSignatures {
          effects := [(signature, entry.meta.value.commitment)];
        }
        transactions := transactions[signature := slot];
      }
    }

    method ProcessBlockMeta(meta: BlockMeta) returns (effects: seq<(Signature, CommitmentLevel)>)
      modifies this`slots, this`transactions
      ensures View() == UpdateMeta(old(View()), meta)
      ensures NoDuplicates(effects)
      ensures var ev := BlockMetaUpdate(meta);
              forall e :: e in effects <==> e.0 in Notified(old(View()), ev) && e.1 == Level(old(View()), ev)
    {
      var entry := if meta.slot in slots then slots[meta.slot] else SlotInfo({}, None);
      slots := slots[meta.slot := entry.(meta := Some(meta))];
      effects := NotifyWatchers(entry.transactions, meta.commitment);
      if meta.commitment == Finalized {
        CleanupOldSlots(meta.height, meta.slot);
      }
    }
  }

  lemma RetainOneMore(slots: map<nat, SlotInfo>, rest: set<nat>, s: nat, height: nat, slot: nat)
    requires s in rest && rest <= slots.Keys
    ensures Kept(slots - (rest - {s}), height, slot) ==
            if Keeps(slots[s], height, slot) then Kept(slots - rest, height, slot)[s := slots[s]] else Kept(slots - rest, height, slot)
    ensures Removed(slots - (rest - {s}), height, slot) ==
            if Keeps(slots[s], height, slot) then Removed(slots - rest, height, slot) else Removed(slots - rest, height, slot) + slots[s].transactions
  {
    var before, after := slots - rest, slots - (rest - {s});
    assert after == before[s := slots[s]] && s !in before;
    if Keeps(slots[s], height, slot) {
      assert Kept(after, height, slot) == Kept(before, height, slot)[s := slots[s]];
    } else {
      assert Kept(after, height, slot) == Kept(before, height, slot);
    }
    forall sig ensures sig in Removed(after, height, slot) <==>
      sig in Removed(before, height, slot) || (!Keeps(slots[s], height, slot) && sig in slots[s].transactions)
    {
      if sig in Removed(after, height, slot) {
        var r :| r in after && !Keeps(after[r], height, slot) && sig in after[r].transactions;
        assert r != s ==> r in before && before[r] == after[r];
      }
      if sig in Removed(before, height, slot) {
        var r :| r in before && !Keeps(before[r], height, slot) && sig in before[r].transactions;
        assert r in after && after[r] == before[r];
      }
      if !Keeps(slots[s], height, slot) && sig in slots[s].transactions {
        assert s in after && after[s] == slots[s];
      }
    }
  }
}
