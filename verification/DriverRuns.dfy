/** Runs of the driver: any interleaving of its events with the steps of its workers, from the
    initial state, for any answers of the services it asks. */
module DriverRuns {
  import opened Types
  import opened Bags
  import opened DriverState
  import opened DriverInvariant
  import opened DriverSteps
  import opened DriverClosing
  import opened DriverDrains
  import opened DriverLedger

  datatype Event =
    | TxArrived(tx: Txn, now: Instant, ans: Answers)
    | ConnectingDone(id: TaskId, outcome: ConnectOutcome, ans: Answers)
    | WorkerDone(id: TaskId, versionMismatch: bool, now: Instant, ans: Answers)
    | EvictionTick(plan: seq<Pubkey>, fallback: Option<SocketAddr>)
    | LeadersPredicted(leaders: seq<Pubkey>, ans: Answers)
    | AddressesChanged(changed: set<Pubkey>, ans: Answers)
    | OrphanTick(now: Instant)
    | IdentityUpdated(identity: Pubkey, order: seq<TaskId>, ans: Answers)
    | WorkerReceives(id: TaskId)
    | WorkerSends(id: TaskId, result: SendResult)
    | DrainReceives(k: nat, id: TaskId)
    | DrainSends(k: nat, id: TaskId, result: SendResult)
    | DrainDone(k: nat, id: TaskId)

  /** What the runtime guarantees of an event. Nothing is asked of the eviction plan, of the
      fallback, of the predicted leaders or of the answers. A parked attempt cannot finish,
      because it waits for its notification first. */
  ghost predicate Enabled(s: State, ev: Event) {
    match ev
    case ConnectingDone(id, _, _) => id in s.dials && id !in s.parked
    case WorkerDone(id, _, _, _) => id in s.tasks
    case IdentityUpdated(_, order, _) => forall id :: id in order <==> id in s.dials
    case WorkerReceives(id) => id in s.tasks && s.tasks[id].queue == [] && s.tasks[id].channel != []
    case WorkerSends(id, _) => id in s.tasks && s.tasks[id].queue != []
    case DrainReceives(k, id) => Drained(s, k, id) && s.drains[k].workers[id].queue == [] && s.drains[k].workers[id].channel != []
    case DrainSends(k, id, _) => Drained(s, k, id) && s.drains[k].workers[id].queue != []
    case DrainDone(k, id) => Drained(s, k, id)
    case _ => true
  }

  /** Task `id` is a worker of the identity that was replaced by update `k`. */
  ghost predicate Drained(s: State, k: nat, id: TaskId) {
    k < |s.drains| && id in s.drains[k].workers
  }

  ghost function Step(c: Config, s: State, ev: Event): State
    requires Enabled(s, ev)
  {
    match ev
    case TxArrived(tx, now, ans) => AcceptTx(c, s, tx, now, ans.dest(tx.peer), ans.stake(tx.peer))
    case ConnectingDone(id, outcome, ans) => HandleConnectingResult(c, s, id, outcome, ans)
    case WorkerDone(id, mismatch, now, ans) =>
      if CanRetire(c, s, id) then HandleWorkerResult(c, s, id, mismatch, now, ans) else s
    case EvictionTick(plan, fallback) => DoEvictionIfRequired(s, plan, fallback)
    case LeadersPredicted(leaders, ans) => SpawnAll(c, s, Distinct(leaders), 1, ans)
    case AddressesChanged(changed, ans) => HandleAddrChange(s, changed, ans)
    case OrphanTick(now) => TryEvictOrphans(c, s, now)
    case IdentityUpdated(identity, order, ans) => UpdateIdentity(c, s, identity, order, ans)
    case WorkerReceives(id) => WorkerReceive(s, id)
    case WorkerSends(id, result) => WorkerSend(c, s, id, result)
    case DrainReceives(k, id) => DrainReceive(s, k, id)
    case DrainSends(k, id, result) => DrainSend(c, s, k, id, result)
    case DrainDone(k, id) => DrainFinish(s, k, id)
  }

  /** `s'` is reached from `s` by the events `evs`. */
  ghost predicate Run(c: Config, s: State, evs: seq<Event>, s': State)
    decreases |evs|
  {
    if evs == [] then s' == s
    else Enabled(s, evs[0]) && Run(c, Step(c, s, evs[0]), evs[1..], s')
  }

  ghost predicate Reachable(c: Config, s: State) {
    exists identity, evs :: Run(c, Initial(identity), evs, s)
  }

  // ---------------------------------------------------------------- the structural invariant over runs

  lemma {:induction false} StepInv(c: Config, s: State, ev: Event)
    requires Inv(c, s) && Enabled(s, ev)
    ensures Inv(c, Step(c, s, ev))
  {
    hide InvExcept;
    match ev
    case TxArrived(tx, now, ans) => AcceptTxKeeps(c, s, tx, now, ans.dest(tx.peer), ans.stake(tx.peer));
    case ConnectingDone(id, outcome, ans) => ConnectingResultKeeps(c, s, id, outcome, ans);
    case WorkerDone(id, mismatch, now, ans) =>
      TaskIsServed(c, s, id);
      WorkerResultKeeps(c, s, id, mismatch, now, ans);
    case EvictionTick(plan, fallback) => DoEvictionKeeps(c, s, plan, fallback);
    case LeadersPredicted(leaders, ans) => SpawnAllKeeps(c, s, Distinct(leaders), 1, ans);
    case AddressesChanged(changed, ans) => AddrChangeKeeps(c, s, changed, ans);
    case OrphanTick(now) => SweepKeeps(c, s, now);
    case IdentityUpdated(identity, order, ans) => UpdateIdentityKeeps(c, s, identity, order, ans);
    case WorkerReceives(id) => WorkerReceiveKeeps(c, s, id);
    case WorkerSends(id, result) => WorkerSendKeeps(c, s, id, result);
    case _ => DrainsKeep(c, s, Step(c, s, ev));
  }

  /** The invariant says nothing of old workers, responses and send calls. */
  lemma DrainsKeep(c: Config, s: State, t: State)
    requires Inv(c, s) && t == s.(drains := t.drains, responses := t.responses, sends := t.sends)
    ensures Inv(c, t)
  {
  }

  // ---------------------------------------------------------------- the books

  /** All entries that may still be sent. */
  ghost function Held(s: State): multiset<Entry> {
    Owned(s) + Handed(s.drains)
  }

  lemma TotalSplit(s: State)
    ensures Total(s) == Held(s) + Reported(s.responses) + Discarded(s.drains)
  {
    hide Owned, Handed, Discarded, Reported;
    Reassociate(Owned(s), Reported(s.responses), Handed(s.drains), Discarded(s.drains));
  }

  lemma Reassociate(o: multiset<Entry>, r: multiset<Entry>, h: multiset<Entry>, d: multiset<Entry>)
    ensures o + r + (h + d) == o + h + r + d
  {
  }

  /** The copies of `tx` in `m` with an attempt number from 1 to `n`. */
  ghost function Copies(m: multiset<Entry>, tx: Txn, n: nat): nat {
    if n == 0 then 0 else m[Entry(tx, n)] + Copies(m, tx, n - 1)
  }

  ghost predicate InRange(m: multiset<Entry>, n: nat) {
    forall e :: e in m ==> 1 <= e.attempt <= n
  }

  /** Every copy of a transaction that waits for, or has made, send call number 1 was accepted;
      every copy that waits for, or has made, call number `a + 1` has made call number `a`. */
  ghost predicate Flows(held: multiset<Entry>, sends: multiset<Entry>, accepted: multiset<Txn>) {
    && (forall tx :: held[Entry(tx, 1)] + sends[Entry(tx, 1)] <= accepted[tx])
    && (forall tx, a :: a >= 1 ==> held[Entry(tx, a + 1)] + sends[Entry(tx, a + 1)] <= sends[Entry(tx, a)])
  }

  ghost predicate Balanced(total: multiset<Entry>, accepted: multiset<Txn>, n: nat) {
    InRange(total, n) && forall tx :: accepted[tx] == Copies(total, tx, n)
  }

  ghost predicate Books(c: Config, s: State) {
    && Balanced(Total(s), s.accepted, c.maxSendAttempts)
    && InRange(s.sends, c.maxSendAttempts)
    && Flows(Held(s), s.sends, s.accepted)
    && Extends(c, [], s.responses)
    && DrainsOk(s.drains)
  }

  lemma {:induction false} CopiesAdd(m: multiset<Entry>, e: Entry, tx: Txn, n: nat)
    ensures Copies(m + multiset{e}, tx, n) == Copies(m, tx, n) + if e.tx == tx && 1 <= e.attempt <= n then 1 else 0
    decreases n
  {
    if n > 0 {
      CopiesAdd(m, e, tx, n - 1);
    }
  }

  lemma BalanceAccepts(total: multiset<Entry>, accepted: multiset<Txn>, n: nat, tx: Txn)
    requires Balanced(total, accepted, n) && n >= 1
    ensures Balanced(total + multiset{Entry(tx, 1)}, accepted + multiset{tx}, n)
  {
    forall t ensures (accepted + multiset{tx})[t] == Copies(total + multiset{Entry(tx, 1)}, t, n) {
      CopiesAdd(total, Entry(tx, 1), t, n);
    }
  }

  /** Replacing an entry by another attempt of the same transaction keeps the balance. */
  lemma BalanceRetries(total: multiset<Entry>, total': multiset<Entry>, accepted: multiset<Txn>, n: nat, e: Entry, next: Entry)
    requires Balanced(total, accepted, n) && e in total
    requires total' + multiset{e} == total + multiset{next} && e.tx == next.tx && 1 <= next.attempt <= n
    ensures Balanced(total', accepted, n)
  {
    forall t ensures accepted[t] == Copies(total', t, n) {
      CopiesAdd(total', e, t, n);
      CopiesAdd(total, next, t, n);
    }
    forall x | x in total' ensures 1 <= x.attempt <= n {
      assert (total' + multiset{e})[x] == (total + multiset{next})[x];
    }
  }

  lemma HeldShrinks(c: Config, s: State, s': State, added: multiset<Entry>)
    requires Moves(c, s, s', added)
    ensures Held(s') <= Held(s) + added
  {
    hide Owned, Handed, Away, Reported;
    ReportedPrefix(s.responses, s'.responses);
    var o, o', r, r', d := Owned(s), Owned(s'), Reported(s.responses), Reported(s'.responses), Away(s.drains);
    forall e ensures Held(s')[e] <= (Held(s) + added)[e] {
      assert (o' + r' + d)[e] == (o + r + d + added)[e];
      assert r[e] <= r'[e];
    }
  }

  lemma FlowsShrink(held: multiset<Entry>, held': multiset<Entry>, sends: multiset<Entry>, accepted: multiset<Txn>)
    requires Flows(held, sends, accepted) && held' <= held
    ensures Flows(held', sends, accepted)
  {
  }

  lemma FlowsAccept(held: multiset<Entry>, held': multiset<Entry>, sends: multiset<Entry>, accepted: multiset<Txn>, tx: Txn)
    requires Flows(held, sends, accepted) && held' <= held + multiset{Entry(tx, 1)}
    ensures Flows(held', sends, accepted + multiset{tx})
  {
    forall t ensures held'[Entry(t, 1)] + sends[Entry(t, 1)] <= (accepted + multiset{tx})[t] {
      assert held'[Entry(t, 1)] <= (held + multiset{Entry(tx, 1)})[Entry(t, 1)];
    }
    forall t, a | a >= 1 ensures held'[Entry(t, a + 1)] + sends[Entry(t, a + 1)] <= sends[Entry(t, a)] {
      assert held'[Entry(t, a + 1)] <= (held + multiset{Entry(tx, 1)})[Entry(t, a + 1)];
    }
  }

  /** The last send call of an entry takes it out of the held entries. */
  lemma FlowsFinish(held: multiset<Entry>, held': multiset<Entry>, sends: multiset<Entry>, accepted: multiset<Txn>, e: Entry)
    requires Flows(held, sends, accepted) && held' + multiset{e} == held
    ensures Flows(held', sends + multiset{e}, accepted)
  {
    forall x ensures held'[x] + (sends + multiset{e})[x] == held[x] + sends[x] {
      assert (held' + multiset{e})[x] == held[x];
    }
  }

  /** A failed send call replaces an entry by its next attempt. */
  lemma FlowsRetry(held: multiset<Entry>, held': multiset<Entry>, sends: multiset<Entry>, accepted: multiset<Txn>, e: Entry)
    requires Flows(held, sends, accepted) && held' + multiset{e} == held + multiset{Entry(e.tx, e.attempt + 1)} && e.attempt >= 1
    ensures Flows(held', sends + multiset{e}, accepted)
  {
    var next := Entry(e.tx, e.attempt + 1);
    forall x ensures held'[x] + (sends + multiset{e})[x] == held[x] + sends[x] + multiset{next}[x] {
      assert (held' + multiset{e})[x] == (held + multiset{next})[x];
    }
  }

  lemma MovesBooks(c: Config, s: State, s': State)
    requires Books(c, s) && Moves(c, s, s', multiset{})
    ensures Books(c, s') && s'.drains == s.drains
  {
    hide Balanced, Flows, InRange;
    assert Total(s') == Total(s);
    HeldShrinks(c, s, s', multiset{});
    assert Held(s) + multiset{} == Held(s);
    FlowsShrink(Held(s), Held(s'), s.sends, s.accepted);
    ExtendsTrans(c, [], s.responses, s'.responses);
  }

  lemma {:induction false} AcceptBooks(c: Config, s: State, tx: Txn, s': State)
    requires Books(c, s) && Moves(c, Noted(s, tx), s', multiset{Entry(tx, 1)}) && c.maxSendAttempts >= 1
    ensures Books(c, s') && s'.drains == s.drains
  {
    hide Balanced, Flows, InRange;
    var n := Noted(s, tx);
    assert Total(n) == Total(s) && Held(n) == Held(s);
    HeldShrinks(c, n, s', multiset{Entry(tx, 1)});
    BalanceAccepts(Total(s), s.accepted, c.maxSendAttempts, tx);
    FlowsAccept(Held(s), Held(s'), s.sends, s.accepted, tx);
    ExtendsTrans(c, [], s.responses, s'.responses);
  }

  ghost predicate LastSend(c: Config, e: Entry, result: SendResult) {
    result.Sent? || e.attempt >= c.maxSendAttempts
  }

  // ---------------------------------------------------------------- send calls

  lemma HeldRange(c: Config, s: State, e: Entry)
    requires Books(c, s) && e in Held(s)
    ensures e in Total(s) && 1 <= e.attempt <= c.maxSendAttempts
  {
    TotalSplit(s);
  }

  /** Held entries that are reported stay in the total. */
  lemma {:induction false} TotalStays(s: State, s': State, gone: multiset<Entry>)
    requires Held(s') + gone == Held(s) && Reported(s'.responses) == Reported(s.responses) + gone
    requires Discarded(s'.drains) == Discarded(s.drains)
    ensures Total(s') == Total(s) && Held(s') <= Held(s)
  {
    hide Held, Total, Reported, Discarded;
    TotalSplit(s);
    TotalSplit(s');
    Shuffle(Held(s'), Held(s), Reported(s'.responses), Reported(s.responses), Discarded(s.drains), gone);
  }

  lemma Shuffle(h': multiset<Entry>, h: multiset<Entry>, r': multiset<Entry>, r: multiset<Entry>, d: multiset<Entry>, gone: multiset<Entry>)
    requires h' + gone == h && r' == r + gone
    ensures h' + r' + d == h + r + d
  {
  }

  /** The last send call of an entry reports it. */
  lemma {:induction false} FinishBooks(c: Config, s: State, s': State, e: Entry, r: Response)
    requires Books(c, s) && e in Held(s) && Held(s') + multiset{e} == Held(s)
    requires s'.responses == s.responses + [r] && EntriesOf(r) == multiset{e} && Routed(c, r)
    requires s'.sends == s.sends + multiset{e} && s'.accepted == s.accepted
    requires DrainsOk(s'.drains) && Discarded(s'.drains) == Discarded(s.drains)
    ensures Books(c, s')
  {
    hide Balanced, Flows, Reported, Held, Total, DrainsOk, Discarded, Routed, EntriesOf;
    HeldRange(c, s, e);
    ReportedOne(s.responses, r);
    TotalStays(s, s', multiset{e});
    ExtendsOne(c, s.responses, r);
    ExtendsTrans(c, [], s.responses, s'.responses);
    FlowsFinish(Held(s), Held(s'), s.sends, s.accepted, e);
  }

  /** A failed send call with attempts left queues the next attempt instead. */
  lemma {:induction false} AgainBooks(c: Config, s: State, s': State, e: Entry)
    requires Books(c, s) && e in Held(s) && e.attempt < c.maxSendAttempts
    requires Held(s') + multiset{e} == Held(s) + multiset{Entry(e.tx, e.attempt + 1)}
    requires s'.responses == s.responses && s'.sends == s.sends + multiset{e} && s'.accepted == s.accepted
    requires DrainsOk(s'.drains) && Discarded(s'.drains) == Discarded(s.drains)
    ensures Books(c, s')
  {
    hide Balanced, Flows, Reported, Held, Total, DrainsOk, Discarded;
    var next := Entry(e.tx, e.attempt + 1);
    HeldRange(c, s, e);
    Shift(Held(s'), Held(s), Reported(s.responses), Discarded(s.drains), multiset{e}, multiset{next});
    TotalSplit(s);
    TotalSplit(s');
    BalanceRetries(Total(s), Total(s'), s.accepted, c.maxSendAttempts, e, next);
    FlowsRetry(Held(s), Held(s'), s.sends, s.accepted, e);
  }

  /** Entries that leave the held ones with a report, without a send call. */
  lemma {:induction false} ReleaseBooks(c: Config, s: State, s': State, gone: multiset<Entry>)
    requires Books(c, s) && Held(s') + gone == Held(s)
    requires Reported(s'.responses) == Reported(s.responses) + gone && Extends(c, s.responses, s'.responses)
    requires s'.sends == s.sends && s'.accepted == s.accepted
    requires DrainsOk(s'.drains) && Discarded(s'.drains) == Discarded(s.drains)
    ensures Books(c, s')
  {
    hide Balanced, Flows, InRange, Reported, Held, Total, DrainsOk, Discarded, Extends;
    TotalStays(s, s', gone);
    ExtendsTrans(c, [], s.responses, s'.responses);
    FlowsShrink(Held(s), Held(s'), s.sends, s.accepted);
  }

  lemma SendCarries(w: Worker)
    requires w.queue != []
    ensures var e := w.queue[0]; var next := Entry(e.tx, e.attempt + 1);
            && e in Carried(w)
            && Carried(w.(queue := w.queue[1..])) + multiset{e} == Carried(w)
            && Carried(w.(queue := w.queue[1..] + [next])) + multiset{e} == Carried(w) + multiset{next}
  {
    var e := w.queue[0];
    assert w.queue == [e] + w.queue[1..];
    assert e in w.queue;
  }

  /** The response of the last send call. */
  function LastResponse(w: Worker, result: SendResult): Response
    requires w.queue != []
  {
    if result.Sent? then TxSent(w.peer, w.addr, w.queue[0]) else TxFailed(w.peer, w.addr, w.queue[0])
  }

  /** What a send call leaves of the worker's queue, and what it reports. */
  lemma CallOutcome(c: Config, w: Worker, result: SendResult)
    requires w.queue != []
    ensures var e := w.queue[0]; var next := Entry(e.tx, e.attempt + 1);
            if LastSend(c, e, result)
            then AfterCall(w.queue, result, c.maxSendAttempts) == w.queue[1..] && Answered(w, result, c.maxSendAttempts) == [LastResponse(w, result)]
                 && EntriesOf(LastResponse(w, result)) == multiset{e} && (e.tx.peer == w.peer ==> Routed(c, LastResponse(w, result)))
            else AfterCall(w.queue, result, c.maxSendAttempts) == w.queue[1..] + [next] && Answered(w, result, c.maxSendAttempts) == []
                 && e.attempt < c.maxSendAttempts
  {
  }

  /** The entry a send call puts in the place of the one it was made for. */
  ghost function Again(c: Config, e: Entry, result: SendResult): multiset<Entry> {
    if LastSend(c, e, result) then multiset{} else multiset{Entry(e.tx, e.attempt + 1)}
  }

  lemma CallCarries(c: Config, w: Worker, result: SendResult)
    requires w.queue != []
    ensures w.queue[0] in Carried(w)
    ensures Carried(w.(queue := AfterCall(w.queue, result, c.maxSendAttempts))) + multiset{w.queue[0]} == Carried(w) + Again(c, w.queue[0], result)
  {
    hide Carried, AfterCall, Answered;
    SendCarries(w);
    CallOutcome(c, w, result);
  }

  lemma {:induction false} WorkerSendHolds(c: Config, s: State, id: TaskId, result: SendResult)
    requires id in s.tasks && s.tasks[id].queue != []
    ensures var e, s' := s.tasks[id].queue[0], WorkerSend(c, s, id, result);
            && e in Held(s)
            && Held(s') + multiset{e} == Held(s) + Again(c, e, result)
  {
    hide Bag, Carried, AfterCall, Answered, Again, Handed;
    var w := s.tasks[id];
    var e := w.queue[0];
    var w' := w.(queue := AfterCall(w.queue, result, c.maxSendAttempts));
    CallCarries(c, w, result);
    BagSplit(s.tasks, id, Carried);
    SetTaskHolds(s, id, w', Again(c, e, result), multiset{e});
    Both(Owned(WorkerSend(c, s, id, result)), multiset{e}, Owned(s), Again(c, e, result), Handed(s.drains));
  }

  lemma {:induction false} WorkerSendBooks(c: Config, s: State, id: TaskId, result: SendResult)
    requires Inv(c, s) && Books(c, s) && id in s.tasks && s.tasks[id].queue != []
    ensures Books(c, WorkerSend(c, s, id, result)) && WorkerSend(c, s, id, result).drains == s.drains
  {
    hide Balanced, Flows, InRange, InvExcept, Reported, Held, Total, AfterCall, Answered, LastResponse, Routed, EntriesOf;
    var w := s.tasks[id];
    var e := w.queue[0];
    var s' := WorkerSend(c, s, id, result);
    WorkerSendHolds(c, s, id, result);
    CallOutcome(c, w, result);
    TaskContents(c, s, id);
    assert e in w.queue;
    if LastSend(c, e, result) {
      FinishBooks(c, s, s', e, LastResponse(w, result));
    } else {
      assert s.responses + [] == s.responses;
      AgainBooks(c, s, s', e);
    }
  }

  // ---------------------------------------------------------------- workers of an old identity

  lemma {:induction false} HeldByDrain(drains: seq<Drain>, k: nat, id: TaskId, e: Entry)
    requires k < |drains| && id in drains[k].workers && e in Carried(drains[k].workers[id])
    ensures e in Handed(drains)
    decreases |drains|
  {
    hide Carried;
    var n := |drains| - 1;
    if k < n {
      HeldByDrain(drains[..n], k, id, e);
    } else {
      BagSplit(drains[k].workers, id, Carried);
    }
  }

  lemma {:induction false} DrainSendHolds(c: Config, s: State, k: nat, id: TaskId, result: SendResult)
    requires Drained(s, k, id) && s.drains[k].workers[id].queue != []
    ensures var e, s' := s.drains[k].workers[id].queue[0], DrainSend(c, s, k, id, result);
            && e in Held(s)
            && Held(s') + multiset{e} == Held(s) + Again(c, e, result)
            && Discarded(s'.drains) == Discarded(s.drains) && QueuesStay(s.drains, s'.drains)
  {
    hide Bag, Carried, AfterCall, Answered, Again, Handed, Discarded, SetDrained, QueuesStay;
    var w := s.drains[k].workers[id];
    var e := w.queue[0];
    CallCarries(c, w, result);
    HeldByDrain(s.drains, k, id, e);
    var w' := w.(queue := AfterCall(w.queue, result, c.maxSendAttempts));
    SetDrainedHolds(s, k, id, w', Again(c, e, result), multiset{e});
    AddFront(Handed(DrainSend(c, s, k, id, result).drains), multiset{e}, Handed(s.drains), Again(c, e, result), Owned(s));
  }

  lemma AddFront(a: multiset<Entry>, b: multiset<Entry>, c: multiset<Entry>, d: multiset<Entry>, x: multiset<Entry>)
    requires a + b == c + d
    ensures x + a + b == x + c + d
  {
    forall e ensures (x + a + b)[e] == (x + c + d)[e] {
      assert (a + b)[e] == (c + d)[e];
    }
  }

  /** What is left of a worker's queue after a call is for the same peer. */
  lemma CallKeepsPeer(c: Config, w: Worker, result: SendResult)
    requires w.queue != [] && forall e :: e in Leftover(w) ==> e.tx.peer == w.peer
    ensures w.queue[0].tx.peer == w.peer
    ensures forall e :: e in Leftover(w.(queue := AfterCall(w.queue, result, c.maxSendAttempts))) ==> e.tx.peer == w.peer
  {
    var queue := AfterCall(w.queue, result, c.maxSendAttempts);
    assert w.queue[0] in w.queue;
    assert forall e :: e in w.queue ==> e in Leftover(w);
    assert forall e :: e in Fresh(w.channel) ==> e in Leftover(w);
    forall e | e in Fresh(w.channel) + queue ensures e.tx.peer == w.peer {
      assert e in queue ==> e in w.queue || e.tx == w.queue[0].tx;
    }
  }

  lemma {:induction false} DrainSendBooks(c: Config, s: State, k: nat, id: TaskId, result: SendResult)
    requires Books(c, s) && Drained(s, k, id) && s.drains[k].workers[id].queue != []
    ensures Books(c, DrainSend(c, s, k, id, result)) && QueuesStay(s.drains, DrainSend(c, s, k, id, result).drains)
  {
    hide Balanced, Flows, InRange, Reported, Held, Total, AfterCall, Answered, LastResponse, Routed, EntriesOf, Leftover, SetDrained, Discarded;
    var w := s.drains[k].workers[id];
    var e := w.queue[0];
    var s' := DrainSend(c, s, k, id, result);
    assert DrainOk(s.drains[k]);
    CallKeepsPeer(c, w, result);
    SetDrainedOk(s, k, id, w.(queue := AfterCall(w.queue, result, c.maxSendAttempts)));
    DrainSendHolds(c, s, k, id, result);
    CallOutcome(c, w, result);
    if LastSend(c, e, result) {
      FinishBooks(c, s, s', e, LastResponse(w, result));
    } else {
      assert s.responses + [] == s.responses;
      AgainBooks(c, s, s', e);
    }
  }

  lemma {:induction false} DrainReceiveBooks(c: Config, s: State, k: nat, id: TaskId)
    requires Books(c, s) && Enabled(s, DrainReceives(k, id))
    ensures Books(c, DrainReceive(s, k, id)) && QueuesStay(s.drains, DrainReceive(s, k, id).drains)
  {
    hide Balanced, Flows, InRange, Reported, Total, Leftover, SetDrained, Discarded, Carried, Handed, Bag;
    var w := s.drains[k].workers[id];
    var w' := w.(channel := w.channel[1..], queue := [Entry(w.channel[0], 1)]);
    var s' := DrainReceive(s, k, id);
    SetDrainedOnly(s, k, id, w');
    ReceiveCarries(w);
    SetDrainedHolds(s, k, id, w', multiset{}, multiset{});
    assert DrainOk(s.drains[k]);
    SameMembers(w, w');
    SetDrainedOk(s, k, id, w');
    ExtendsTrans(c, s.responses, s.responses, s.responses);
    Unchanged(Handed(s'.drains), Handed(s.drains));
    ReleaseBooks(c, s, s', multiset{});
  }

  lemma SetDrainedOnly(s: State, k: nat, id: TaskId, w: Worker)
    requires k < |s.drains|
    ensures var t := SetDrained(s, k, id, w); t == s.(drains := t.drains)
  {
  }

  lemma Unchanged(h': multiset<Entry>, h: multiset<Entry>)
    requires h' + multiset{} == h + multiset{}
    ensures h' == h
  {
    assert h' + multiset{} == h' && h + multiset{} == h;
  }

  lemma Front(x: multiset<Entry>, a: multiset<Entry>, b: multiset<Entry>, c: multiset<Entry>)
    requires a + b == c
    ensures x + a + b == x + c
  {
  }

  lemma SameMembers(w: Worker, w': Worker)
    requires Carried(w) == Carried(w')
    ensures forall e :: e in Leftover(w') ==> e in Leftover(w)
  {
    forall e | e in Leftover(w') ensures e in Leftover(w) {
      assert e in Carried(w');
    }
  }

  lemma {:induction false} DrainFinishBooks(c: Config, s: State, k: nat, id: TaskId)
    requires Books(c, s) && Drained(s, k, id)
    ensures Books(c, DrainFinish(s, k, id)) && QueuesStay(s.drains, DrainFinish(s, k, id).drains)
  {
    hide Balanced, Flows, InRange, Reported, Total, Leftover, DrainFinish, Discarded, Handed, Bag;
    var w := s.drains[k].workers[id];
    var r := TxDrop(w.peer, DriverIdentityChanged, Leftover(w));
    assert DrainOk(s.drains[k]);
    DrainFinishIs(s, k, id);
    DrainFinishHolds(s, k, id);
    ReportedOne(s.responses, r);
    ExtendsOne(c, s.responses, r);
    Front(Owned(s), Handed(DrainFinish(s, k, id).drains), Carried(w), Handed(s.drains));
    ReleaseBooks(c, s, DrainFinish(s, k, id), Carried(w));
  }

  /** Workers and queues that an update leaves behind: no worker's peer has a queue. */
  lemma ResetDrainsOk(c: Config, s: State)
    requires Inv(c, s) && DrainsOk(s.drains)
    ensures DrainsOk(s.drains + [Drain(s.tasks, s.queues)])
  {
    hide Leftover;
    var d := Drain(s.tasks, s.queues);
    forall p | p in d.queues ensures d.queues[p] != [] {
      assert QueueOk(c, p, s.queues, s.workers);
    }
    forall id | id in d.workers ensures d.workers[id].peer !in d.queues && forall e :: e in Leftover(d.workers[id]) ==> e.tx.peer == d.workers[id].peer {
      assert TaskOk(c, id, s.workers, s.tasks, s.nextTask);
      assert d.workers[id].peer in d.queues ==> QueueOk(c, d.workers[id].peer, s.queues, s.workers);
      LeftoverIsForPeer(c, s, id);
    }
    assert DrainOk(d);
  }

  lemma {:induction false} ResetBooks(c: Config, s: State, identity: Pubkey)
    requires Inv(c, s) && Books(c, s)
    ensures Books(c, ResetForIdentity(s, identity)) && QueuesStay(s.drains, ResetForIdentity(s, identity).drains)
  {
    hide Balanced, Flows, InRange, Total, InvExcept, Bag, Handed, DrainsOk;
    var r := ResetForIdentity(s, identity);
    ResetTotal(s, identity);
    ResetDrainsOk(c, s);
    Smaller(Bag(s.queues, Queued), Bag(s.tasks, Carried), Handed(s.drains));
    FlowsShrink(Held(s), Held(r), s.sends, s.accepted);
  }

  lemma Smaller(q: multiset<Entry>, t: multiset<Entry>, h: multiset<Entry>)
    ensures multiset{} + (h + t) <= q + t + h
  {
  }

  lemma {:induction false} StepBooks(c: Config, s: State, ev: Event)
    requires Inv(c, s) && Books(c, s) && Enabled(s, ev) && c.maxSendAttempts >= 1
    ensures Books(c, Step(c, s, ev))
    ensures QueuesStay(s.drains, Step(c, s, ev).drains)
    ensures !ev.IdentityUpdated? ==> |Step(c, s, ev).drains| == |s.drains|
  {
    hide InvExcept, Moves, Books;
    match ev
    case TxArrived(tx, now, ans) =>
      AcceptTxMoves(c, s, tx, now, ans.dest(tx.peer), ans.stake(tx.peer));
      AcceptBooks(c, s, tx, Step(c, s, ev));
    case ConnectingDone(id, outcome, ans) =>
      ConnectingResultMoves(c, s, id, outcome, ans);
      MovesBooks(c, s, Step(c, s, ev));
    case WorkerDone(id, mismatch, now, ans) =>
      TaskIsServed(c, s, id);
      WorkerResultMoves(c, s, id, mismatch, now, ans);
      MovesBooks(c, s, Step(c, s, ev));
    case EvictionTick(plan, fallback) =>
      DoEvictionMoves(c, s, plan, fallback);
      MovesBooks(c, s, Step(c, s, ev));
    case LeadersPredicted(leaders, ans) =>
      SpawnAllMoves(c, s, Distinct(leaders), 1, ans);
      MovesBooks(c, s, Step(c, s, ev));
    case AddressesChanged(changed, ans) =>
      AddrChangeMoves(c, s, changed, ans);
      MovesBooks(c, s, Step(c, s, ev));
    case OrphanTick(now) =>
      Unmoved(c, s, TryEvictOrphans(c, s, now));
      MovesBooks(c, s, Step(c, s, ev));
    case IdentityUpdated(identity, order, ans) =>
      ResetBooks(c, s, identity);
      UpdateIdentityMoves(c, s, identity, order, ans);
      MovesBooks(c, ResetForIdentity(s, identity), Step(c, s, ev));
    case WorkerReceives(id) =>
      WorkerReceiveMoves(c, s, id);
      MovesBooks(c, s, Step(c, s, ev));
    case WorkerSends(id, result) => WorkerSendBooks(c, s, id, result);
    case DrainReceives(k, id) => DrainReceiveBooks(c, s, k, id);
    case DrainSends(k, id, result) => DrainSendBooks(c, s, k, id, result);
    case DrainDone(k, id) => DrainFinishBooks(c, s, k, id);
  }

  lemma InitialBooks(c: Config, identity: Pubkey)
    ensures Books(c, Initial(identity))
  {
    var s := Initial(identity);
    assert Total(s) == multiset{};
    forall tx ensures Copies(multiset{}, tx, c.maxSendAttempts) == 0 {
      NoCopies(tx, c.maxSendAttempts);
    }
  }

  lemma {:induction false} NoCopies(tx: Txn, n: nat)
    ensures Copies(multiset{}, tx, n) == 0
  {
    if n > 0 {
      NoCopies(tx, n - 1);
    }
  }

  lemma {:induction false} RunKeeps(c: Config, s: State, evs: seq<Event>, s': State)
    requires Inv(c, s) && Books(c, s) && Run(c, s, evs, s') && c.maxSendAttempts >= 1
    ensures Inv(c, s') && Books(c, s')
    ensures QueuesStay(s.drains, s'.drains)
    ensures (forall i :: 0 <= i < |evs| ==> !evs[i].IdentityUpdated?) ==> |s'.drains| == |s.drains|
    decreases |evs|
  {
    hide InvExcept, Books;
    if evs != [] {
      StepInv(c, s, evs[0]);
      StepBooks(c, s, evs[0]);
      RunKeeps(c, Step(c, s, evs[0]), evs[1..], s');
    }
  }

  lemma ReachableKeeps(c: Config, s: State)
    requires Reachable(c, s) && c.maxSendAttempts >= 1
    ensures Inv(c, s) && Books(c, s)
  {
    hide InvExcept, Books;
    var identity, evs :| Run(c, Initial(identity), evs, s);
    InitialInv(c, identity);
    InitialBooks(c, identity);
    RunKeeps(c, Initial(identity), evs, s);
  }
}
