/** The retry scheduler: it sends a transaction when it arrives and again at the retry rate, until
    it has landed, its attempts are used up, or its last valid block height is past.

    Four overlapping indexes are pruned by different rules: the pool of transactions still to be
    resent, the signatures watched for landing, the deadline map and the insertion order. */
module RetryScheduling {
  import opened Types
  import opened Commitment
  import opened Collections

  datatype Config = Config(retryRate: nat, stopOn: CommitmentLevel, maxRetry: nat, maxProcessingAge: nat)

  datatype Request = Request(signature: Signature, maxRetries: Option<nat>)

  datatype Retryable = Retryable(tx: Request, leftover: nat)

  datatype DeadLetter = ReachedMaxProcessingAge(sig: Signature) | ReachedMaxRetries(sig: Signature) | AlreadyLanded(sig: Signature)

  datatype Schedule = Schedule(
    pool: map<Signature, Retryable>,
    deadlines: map<nat, seq<Signature>>,
    order: seq<(Instant, Signature)>,
    watched: set<Signature>,
    lastKnownHeight: nat,
    sent: seq<Request>,              // requests handed to the response sink
    letters: seq<DeadLetter>,
    granted: multiset<Signature>)    // one copy per send that the accepted requests allow

  // ---------------------------------------------------------------- what the steps do

  /** The entry at the front of the insertion order is due: it is taken out, and a transaction
      still in the pool is sent again and queued at the back, or given up. */
  ghost function HandleFront(v: Schedule, now: Instant): Schedule
    requires v.order != []
  {
    var sig, rest := v.order[0].1, v.order[1..];
    if sig !in v.pool then v.(order := rest)
    else if v.pool[sig].leftover > 0 then
      v.(pool := v.pool[sig := v.pool[sig].(leftover := v.pool[sig].leftover - 1)],
         sent := v.sent + [v.pool[sig].tx],
         order := rest + [(now, sig)])
    else v.(pool := v.pool - {sig}, order := rest, letters := v.letters + [ReachedMaxRetries(sig)])
  }

  ghost function Rounds(v: Schedule, now: Instant, k: nat): Schedule
    decreases k
  {
    if k == 0 then v
    else
      var u := Rounds(v, now, k - 1);
      if u.order == [] then u else HandleFront(u, now)
  }

  predicate Due(c: Config, entry: (Instant, Signature), now: Instant) {
    Saturating(now - entry.0) >= c.retryRate
  }

  /** The signatures whose deadline is below `h`, in ascending order of deadline. */
  function Collected(deadlines: map<nat, seq<Signature>>, h: nat): seq<Signature> {
    if h == 0 then [] else Collected(deadlines, h - 1) + if h - 1 in deadlines then deadlines[h - 1] else []
  }

  function Aged(sigs: seq<Signature>): seq<DeadLetter> {
    seq(|sigs|, i requires 0 <= i < |sigs| => ReachedMaxProcessingAge(sigs[i]))
  }

  function Outdated(c: Config, lastKnownHeight: nat): nat {
    Saturating(lastKnownHeight - c.maxProcessingAge)
  }

  function From<V>(m: map<nat, V>, h: nat): map<nat, V> {
    map k | k in m && k >= h :: m[k]
  }

  ghost function Collect(c: Config, v: Schedule): Schedule {
    var h := Outdated(c, v.lastKnownHeight);
    var sigs := Collected(v.deadlines, h);
    v.(deadlines := From(v.deadlines, h),
       pool := v.pool - Elements(sigs),
       watched := v.watched - Elements(sigs),
       letters := v.letters + Aged(sigs))
  }

  ghost function Update(c: Config, v: Schedule, sig: Signature, commitment: CommitmentLevel): Schedule {
    if commitment == c.stopOn then v.(pool := v.pool - {sig}) else v
  }

  /** How many attempts a request asks for; an absent number means none. */
  function Retries(c: Config, tx: Request): nat {
    Min(if tx.maxRetries.Some? then tx.maxRetries.value else 0, c.maxRetry)
  }

  /** What the services answer when a request arrives: the confirmed block height, the height of
      the request's blockhash, and the commitment of its transaction. */
  datatype Answers = Answers(height: Option<nat>, blockhashHeight: Option<nat>, commitment: Option<CommitmentLevel>)

  function CurrentHeight(ans: Answers): nat {
    if ans.height.Some? then ans.height.value else 0
  }

  function LastValid(c: Config, ans: Answers): nat {
    (if ans.blockhashHeight.Some? then ans.blockhashHeight.value else CurrentHeight(ans)) + c.maxProcessingAge
  }

  predicate Landed(c: Config, ans: Answers) {
    ans.commitment.Some? && ans.commitment.value.Rank() >= c.stopOn.Rank()
  }

  predicate Accepts(c: Config, ans: Answers) {
    LastValid(c, ans) >= CurrentHeight(ans) && !Landed(c, ans)
  }

  ghost function Admit(c: Config, v: Schedule, tx: Request, now: Instant, lastValid: nat): Schedule {
    var sig := tx.signature;
    v.(watched := v.watched + {sig},
       pool := v.pool[sig := Retryable(tx, Saturating(Retries(c, tx) - 1))],
       deadlines := Push(v.deadlines, lastValid, sig),
       sent := v.sent + [tx],
       order := v.order + [(now, sig)],
       granted := v.granted[sig := v.granted[sig] + Max(1, Retries(c, tx))])
  }

  ghost function Add(c: Config, v: Schedule, tx: Request, now: Instant, ans: Answers): Schedule {
    var u := v.(lastKnownHeight := CurrentHeight(ans));
    if LastValid(c, ans) < CurrentHeight(ans) then u.(letters := u.letters + [ReachedMaxProcessingAge(tx.signature)])
    else if Landed(c, ans) then u.(letters := u.letters + [AlreadyLanded(tx.signature)])
    else Admit(c, u, tx, now, LastValid(c, ans))
  }

  // ---------------------------------------------------------------- the indexes

  ghost function DeadlineSignatures(deadlines: map<nat, seq<Signature>>): set<Signature> {
    set h, sig | h in deadlines && sig in deadlines[h] :: sig
  }

  ghost function OrderSignatures(order: seq<(Instant, Signature)>): set<Signature> {
    set e | e in order :: e.1
  }

  /** Whatever may be resent is watched and will come up in the insertion order, and whatever is
      watched will be collected with a deadline. */
  ghost predicate Indexed(v: Schedule) {
    && v.pool.Keys <= v.watched <= DeadlineSignatures(v.deadlines)
    && v.pool.Keys <= OrderSignatures(v.order)
    && (forall sig :: sig in v.pool ==> v.pool[sig].tx.signature == sig)
  }

  lemma FrontIndexed(v: Schedule, now: Instant)
    requires Indexed(v) && v.order != []
    ensures Indexed(HandleFront(v, now))
  {
    hide DeadlineSignatures;
    var sig, rest := v.order[0].1, v.order[1..];
    var u := HandleFront(v, now);
    forall s | s in u.pool ensures s in OrderSignatures(u.order) {
      if s == sig {
        assert (now, sig) in u.order;
      } else {
        var e :| e in v.order && e.1 == s;
        assert e in rest;
        assert e in u.order;
      }
    }
  }

  lemma {:induction false} CollectedSignatures(deadlines: map<nat, seq<Signature>>, h: nat, sig: Signature)
    ensures sig in Collected(deadlines, h) <==> exists k :: k in deadlines && k < h && sig in deadlines[k]
  {
    if h > 0 {
      CollectedSignatures(deadlines, h - 1, sig);
    }
  }

  lemma CollectIndexed(c: Config, v: Schedule)
    requires Indexed(v)
    ensures Indexed(Collect(c, v))
  {
    var h := Outdated(c, v.lastKnownHeight);
    var sigs := Collected(v.deadlines, h);
    forall sig | sig in v.watched && sig !in sigs ensures sig in DeadlineSignatures(From(v.deadlines, h)) {
      CollectedSignatures(v.deadlines, h, sig);
      var k :| k in v.deadlines && sig in v.deadlines[k];
      assert k in From(v.deadlines, h);
    }
  }

  lemma AdmitIndexed(c: Config, v: Schedule, tx: Request, now: Instant, lastValid: nat)
    requires Indexed(v)
    ensures Indexed(Admit(c, v, tx, now, lastValid))
  {
    var u := Admit(c, v, tx, now, lastValid);
    forall sig | sig in u.watched ensures sig in DeadlineSignatures(u.deadlines) {
      if sig == tx.signature {
        assert sig in u.deadlines[lastValid];
      } else {
        var h :| h in v.deadlines && sig in v.deadlines[h];
        assert h in u.deadlines && sig in u.deadlines[h];
      }
    }
    assert (now, tx.signature) in u.order;
    forall sig | sig in u.pool ensures sig in OrderSignatures(u.order) {
      if sig != tx.signature {
        var e :| e in v.order && e.1 == sig;
        assert e in u.order;
      }
    }
  }

  // ---------------------------------------------------------------- the send budget

  ghost function SendsOf(sent: seq<Request>, sig: Signature): nat {
    if sent == [] then 0
    else SendsOf(sent[..|sent| - 1], sig) + if sent[|sent| - 1].signature == sig then 1 else 0
  }

  lemma SendsAppend(sent: seq<Request>, tx: Request, sig: Signature)
    ensures SendsOf(sent + [tx], sig) == SendsOf(sent, sig) + if tx.signature == sig then 1 else 0
  {
    assert (sent + [tx])[..|sent|] == sent;
  }

  ghost function LeftoverOf(pool: map<Signature, Retryable>, sig: Signature): nat {
    if sig in pool then pool[sig].leftover else 0
  }

  /** What was sent of a signature and what may still be sent was granted by accepted requests. */
  ghost predicate WithinBudget(v: Schedule) {
    forall sig {:trigger v.granted[sig]} :: SendsOf(v.sent, sig) + LeftoverOf(v.pool, sig) <= v.granted[sig]
  }

  lemma FrontBudget(v: Schedule, now: Instant)
    requires WithinBudget(v) && Indexed(v) && v.order != []
    ensures WithinBudget(HandleFront(v, now))
  {
    var sig := v.order[0].1;
    var u := HandleFront(v, now);
    forall s ensures SendsOf(u.sent, s) + LeftoverOf(u.pool, s) <= u.granted[s] {
      assert SendsOf(v.sent, s) + LeftoverOf(v.pool, s) <= v.granted[s];
      if sig in v.pool {
        SendsAppend(v.sent, v.pool[sig].tx, s);
      }
    }
  }

  lemma AdmitBudget(c: Config, v: Schedule, tx: Request, now: Instant, lastValid: nat)
    requires WithinBudget(v)
    ensures WithinBudget(Admit(c, v, tx, now, lastValid))
  {
    var u := Admit(c, v, tx, now, lastValid);
    forall s ensures SendsOf(u.sent, s) + LeftoverOf(u.pool, s) <= u.granted[s] {
      assert SendsOf(v.sent, s) + LeftoverOf(v.pool, s) <= v.granted[s];
      SendsAppend(v.sent, tx, s);
    }
  }

  // ---------------------------------------------------------------- one resend pass

  /** The number of entries in front that are due. */
  function DueCount(c: Config, order: seq<(Instant, Signature)>, now: Instant): nat {
    if order == [] || !Due(c, order[0], now) then 0 else 1 + DueCount(c, order[1..], now)
  }

  lemma {:induction false} DuePrefix(c: Config, order: seq<(Instant, Signature)>, now: Instant)
    ensures DueCount(c, order, now) <= |order|
    ensures forall i :: 0 <= i < DueCount(c, order, now) ==> Due(c, order[i], now)
    ensures DueCount(c, order, now) < |order| ==> !Due(c, order[DueCount(c, order, now)], now)
  {
    if order != [] && Due(c, order[0], now) {
      DuePrefix(c, order[1..], now);
      assert forall i :: 0 < i < |order| ==> order[i] == order[1..][i - 1];
    }
  }

  /** After `i` rounds the order is what is left of the old one, followed by entries queued now. */
  ghost predicate Requeued(old': seq<(Instant, Signature)>, i: nat, order: seq<(Instant, Signature)>, now: Instant) {
    i <= |old'| && |old'| - i <= |order| && order[..|old'| - i] == old'[i..]
    && forall j :: |old'| - i <= j < |order| ==> order[j].0 == now
  }

  lemma {:induction false} RoundsRequeue(v: Schedule, now: Instant, i: nat)
    requires i <= |v.order|
    ensures Requeued(v.order, i, Rounds(v, now, i).order, now)
    decreases i
  {
    if i > 0 {
      RoundsRequeue(v, now, i - 1);
      var u := Rounds(v, now, i - 1);
      FrontRequeues(v.order, i - 1, u, now);
    }
  }

  lemma FrontRequeues(old': seq<(Instant, Signature)>, i: nat, u: Schedule, now: Instant)
    requires i < |old'| && Requeued(old', i, u.order, now)
    ensures u.order != [] && u.order[0] == old'[i]
    ensures Requeued(old', i + 1, HandleFront(u, now).order, now)
  {
    var n := |old'| - i;
    assert u.order[0] == u.order[..n][0] == old'[i..][0];
    var rest := u.order[1..];
    assert rest[..n - 1] == u.order[..n][1..] == old'[i..][1..] == old'[i + 1..];
    var order := HandleFront(u, now).order;
    assert order[..n - 1] == rest[..n - 1];
  }

  /** The pass of a resend tick, for any clock and any order: it handles the due entries in front,
      each once and in their order, and stops there, because an entry queued again is not due. */
  lemma PassHandlesDueOnce(c: Config, v: Schedule, now: Instant, i: nat)
    requires c.retryRate > 0 && i <= DueCount(c, v.order, now)
    ensures DueCount(c, v.order, now) <= |v.order|
    ensures var u := Rounds(v, now, i);
            if i < DueCount(c, v.order, now)
            then u.order != [] && u.order[0] == v.order[i] && Due(c, u.order[0], now)
            else u.order == [] || !Due(c, u.order[0], now)
  {
    DuePrefix(c, v.order, now);
    RoundsRequeue(v, now, i);
    var u := Rounds(v, now, i);
    var n := |v.order| - i;
    assert n > 0 ==> u.order[0] == u.order[..n][0] == v.order[i];
  }

  // ---------------------------------------------------------------- the pass ends

  ghost function LeftoverSum(pool: map<Signature, Retryable>): nat {
    if pool == map[] then 0
    else var sig :| sig in pool; pool[sig].leftover + LeftoverSum(pool - {sig})
  }

  lemma {:induction false} LeftoverSplit(pool: map<Signature, Retryable>, sig: Signature)
    requires sig in pool
    ensures LeftoverSum(pool) == pool[sig].leftover + LeftoverSum(pool - {sig})
    decreases |pool|
  {
    var s :| s in pool && LeftoverSum(pool) == pool[s].leftover + LeftoverSum(pool - {s});
    if s != sig {
      assert (pool - {s}).Keys == pool.Keys - {s} && (pool - {sig}).Keys == pool.Keys - {sig};
      LeftoverSplit(pool - {s}, sig);
      LeftoverSplit(pool - {sig}, s);
      assert pool - {s} - {sig} == pool - {sig} - {s};
    }
  }

  /** What a pass can still do: entries to handle, and resends that queue an entry again. */
  ghost function Work(v: Schedule): nat {
    |v.order| + LeftoverSum(v.pool)
  }

  lemma FrontUsesWork(v: Schedule, now: Instant)
    requires v.order != []
    ensures Work(HandleFront(v, now)) < Work(v)
  {
    var sig := v.order[0].1;
    if sig in v.pool {
      LeftoverSplit(v.pool, sig);
      if v.pool[sig].leftover > 0 {
        var pool := v.pool[sig := v.pool[sig].(leftover := v.pool[sig].leftover - 1)];
        LeftoverSplit(pool, sig);
        assert pool - {sig} == v.pool - {sig};
      }
    }
  }

  /** The whole pass: handle the front as long as it is due. It ends whatever the clock says. */
  ghost function Pass(c: Config, v: Schedule, now: Instant): Schedule
    decreases Work(v)
  {
    if v.order == [] || !Due(c, v.order[0], now) then v
    else
      FrontUsesWork(v, now);
      Pass(c, HandleFront(v, now), now)
  }

  /** The first round can be taken off the front. */
  lemma {:induction false} RoundsFirst(v: Schedule, now: Instant, k: nat)
    requires v.order != []
    ensures Rounds(v, now, k + 1) == Rounds(HandleFront(v, now), now, k)
    decreases k
  {
    hide HandleFront;
    if k == 0 {
      assert Rounds(v, now, 0) == v;
    } else {
      RoundsFirst(v, now, k - 1);
    }
  }

  lemma {:induction false} PassIsRounds(c: Config, v: Schedule, now: Instant, k: nat)
    requires forall i :: 0 <= i < k ==> Rounds(v, now, i).order != [] && Due(c, Rounds(v, now, i).order[0], now)
    requires var u := Rounds(v, now, k); u.order == [] || !Due(c, u.order[0], now)
    ensures Pass(c, v, now) == Rounds(v, now, k)
    decreases k
  {
    hide HandleFront;
    if k > 0 {
      assert Rounds(v, now, 0) == v;
      var u := HandleFront(v, now);
      forall i | 0 <= i < k - 1 ensures Rounds(u, now, i).order != [] && Due(c, Rounds(u, now, i).order[0], now) {
        RoundsFirst(v, now, i);
      }
      RoundsFirst(v, now, k - 1);
      PassIsRounds(c, u, now, k - 1);
    }
  }

  /** The order holds no due entry behind one that is not due. */
  ghost predicate DueFirst(c: Config, order: seq<(Instant, Signature)>, now: Instant) {
    forall i, j :: 0 <= i < j < |order| && Due(c, order[j], now) ==> Due(c, order[i], now)
  }

  /** A pass is one round for each due entry in front. It leaves no due entry behind if and only if
      none stood behind an entry that was not due. */
  lemma PassLeavesNoneDue(c: Config, v: Schedule, now: Instant)
    requires c.retryRate > 0
    ensures Pass(c, v, now) == Rounds(v, now, DueCount(c, v.order, now))
    ensures (forall e :: e in Pass(c, v, now).order ==> !Due(c, e, now)) <==> DueFirst(c, v.order, now)
  {
    hide HandleFront, Rounds, Pass;
    var k := DueCount(c, v.order, now);
    forall i | 0 <= i < k ensures Rounds(v, now, i).order != [] && Due(c, Rounds(v, now, i).order[0], now) {
      PassHandlesDueOnce(c, v, now, i);
    }
    PassHandlesDueOnce(c, v, now, k);
    PassIsRounds(c, v, now, k);
    RoundsRequeue(v, now, k);
    RequeuedDue(c, v.order, k, Pass(c, v, now).order, now);
    DuePrefix(c, v.order, now);
    if DueFirst(c, v.order, now) {
      assert forall j :: k <= j < |v.order| ==> !Due(c, v.order[j], now);
    }
  }

  /** Of the entries left by `i` rounds only those of the old order can be due. */
  lemma RequeuedDue(c: Config, old': seq<(Instant, Signature)>, i: nat, order: seq<(Instant, Signature)>, now: Instant)
    requires c.retryRate > 0 && Requeued(old', i, order, now)
    ensures (forall e :: e in order ==> !Due(c, e, now)) <==> forall j :: i <= j < |old'| ==> !Due(c, old'[j], now)
  {
    var n := |old'| - i;
    assert forall j :: 0 <= j < n ==> order[j] == order[..n][j] == old'[i + j];
    if forall j :: i <= j < |old'| ==> !Due(c, old'[j], now) {
      forall e | e in order ensures !Due(c, e, now) {
        var j :| 0 <= j < |order| && order[j] == e;
        assert j < n ==> e == old'[i + j];
      }
    } else {
      var j :| i <= j < |old'| && Due(c, old'[j], now);
      assert order[j - i] == old'[j] && order[j - i] in order;
    }
  }

  // ---------------------------------------------------------------- leaving the pool

  /** How many due rounds a transaction can still take part in. */
  ghost function Rank(v: Schedule, sig: Signature): nat {
    if sig in v.pool then v.pool[sig].leftover + 1 else 0
  }

  ghost function Entries(order: seq<(Instant, Signature)>, sig: Signature): nat {
    if order == [] then 0 else Entries(order[..|order| - 1], sig) + if order[|order| - 1].1 == sig then 1 else 0
  }

  lemma FrontRank(v: Schedule, now: Instant, sig: Signature)
    requires v.order != []
    ensures Rank(HandleFront(v, now), sig) == if v.order[0].1 == sig then Saturating(Rank(v, sig) - 1) else Rank(v, sig)
  {
  }

  /** After `i` rounds every entry of the transaction that came up has used one of its rounds. */
  lemma {:induction false} RoundsRank(v: Schedule, now: Instant, i: nat, sig: Signature)
    requires i <= |v.order|
    ensures Rank(Rounds(v, now, i), sig) == Saturating(Rank(v, sig) - Entries(v.order[..i], sig))
    decreases i
  {
    hide HandleFront;
    if i > 0 {
      RoundsRank(v, now, i - 1, sig);
      RoundsRequeue(v, now, i - 1);
      var u := Rounds(v, now, i - 1);
      FrontRequeues(v.order, i - 1, u, now);
      FrontRank(u, now, sig);
      assert v.order[..i][..i - 1] == v.order[..i - 1];
    }
  }

  /** One pass takes off as many rounds as the transaction has entries among the due ones in
      front; with none left it is out of the pool. */
  lemma PassLowersRank(c: Config, v: Schedule, now: Instant, sig: Signature)
    requires c.retryRate > 0
    ensures DueCount(c, v.order, now) <= |v.order|
    ensures Rank(Pass(c, v, now), sig) == Saturating(Rank(v, sig) - Entries(v.order[..DueCount(c, v.order, now)], sig))
  {
    hide Pass, Rounds, HandleFront, DueFirst, Due, Entries;
    DuePrefix(c, v.order, now);
    PassLeavesNoneDue(c, v, now);
    RoundsRank(v, now, DueCount(c, v.order, now), sig);
  }

  lemma {:induction false} EntriesFound(order: seq<(Instant, Signature)>, sig: Signature, i: nat)
    requires i < |order| && order[i].1 == sig
    ensures Entries(order, sig) >= 1
  {
    var n := |order| - 1;
    if i < n {
      assert order[..n][i] == order[i];
      EntriesFound(order[..n], sig, i);
    }
  }

  // ---------------------------------------------------------------- what a pass sends

  /** The requests resent for entries that come up one after the other: an entry counts as long as
      fewer entries of its transaction came up before than it has attempts left. */
  ghost function Resent(pool: map<Signature, Retryable>, entries: seq<(Instant, Signature)>): seq<Request> {
    if entries == [] then []
    else
      var n := |entries| - 1;
      var sig := entries[n].1;
      Resent(pool, entries[..n]) + if sig in pool && Entries(entries[..n], sig) < pool[sig].leftover then [pool[sig].tx] else []
  }

  ghost function Again(now: Instant, sent: seq<Request>): seq<(Instant, Signature)> {
    seq(|sent|, i requires 0 <= i < |sent| => (now, sent[i].signature))
  }

  /** The requests of the pool stay as they are while they are there. */
  lemma {:induction false} RoundsKeepRequests(v: Schedule, now: Instant, i: nat, sig: Signature)
    requires i <= |v.order| && sig in Rounds(v, now, i).pool
    ensures sig in v.pool && Rounds(v, now, i).pool[sig].tx == v.pool[sig].tx
    decreases i
  {
    hide HandleFront;
    if i > 0 {
      var u := Rounds(v, now, i - 1);
      if u.order != [] {
        FrontKeepsRequest(u, now, sig);
      }
      RoundsKeepRequests(v, now, i - 1, sig);
    }
  }

  lemma FrontKeepsRequest(v: Schedule, now: Instant, sig: Signature)
    requires v.order != [] && sig in HandleFront(v, now).pool
    ensures sig in v.pool && HandleFront(v, now).pool[sig].tx == v.pool[sig].tx
  {
  }

  /** After `i` rounds exactly the requests of `Resent` were handed over, in this order, and queued
      again in this order behind the entries that have not come up. */
  lemma {:induction false} RoundsSend(v: Schedule, now: Instant, i: nat)
    requires Indexed(v) && i <= |v.order|
    ensures Rounds(v, now, i).sent == v.sent + Resent(v.pool, v.order[..i])
    ensures Rounds(v, now, i).order == v.order[i..] + Again(now, Resent(v.pool, v.order[..i]))
    decreases i
  {
    hide Indexed, Entries, HandleFront, Resent, Again;
    if i == 0 {
      NothingResent(v, now);
    } else {
      RoundsSend(v, now, i - 1);
      RoundSends(v, now, i - 1);
    }
  }

  lemma NothingResent(v: Schedule, now: Instant)
    ensures v.order[..0] == [] && v.sent + Resent(v.pool, []) == v.sent && v.order[0..] + Again(now, Resent(v.pool, [])) == v.order
  {
  }

  /** One more round. */
  lemma RoundSends(v: Schedule, now: Instant, i: nat)
    requires Indexed(v) && i < |v.order|
    requires Rounds(v, now, i).sent == v.sent + Resent(v.pool, v.order[..i])
    requires Rounds(v, now, i).order == v.order[i..] + Again(now, Resent(v.pool, v.order[..i]))
    ensures Rounds(v, now, i + 1).sent == v.sent + Resent(v.pool, v.order[..i + 1])
    ensures Rounds(v, now, i + 1).order == v.order[i + 1..] + Again(now, Resent(v.pool, v.order[..i + 1]))
  {
    hide Indexed, Entries, HandleFront, Again;
    var u := Rounds(v, now, i);
    var entry, done := v.order[i], Resent(v.pool, v.order[..i]);
    assert u.order == [entry] + (v.order[i + 1..] + Again(now, done));
    assert u.order[0] == entry && u.order[1..] == v.order[i + 1..] + Again(now, done);
    ResentOneMore(v.pool, v.order, i);
    RoundsRank(v, now, i, entry.1);
    PooledRequest(v, entry.1);
    if entry.1 in u.pool {
      RoundsKeepRequests(v, now, i, entry.1);
    }
    FrontSends(u, now);
    AgainAppends(now, done);
    assert done + [] == done && v.sent + done + [] == v.sent + done;
    assert v.order[i + 1..] + Again(now, done) + [(now, entry.1)] == v.order[i + 1..] + (Again(now, done) + [(now, entry.1)]);
    assert forall tx :: v.sent + done + [tx] == v.sent + (done + [tx]);
    assert Rounds(v, now, i + 1) == HandleFront(u, now);
  }

  lemma ResentOneMore(pool: map<Signature, Retryable>, order: seq<(Instant, Signature)>, i: nat)
    requires i < |order|
    ensures var sig := order[i].1;
            Resent(pool, order[..i + 1]) == Resent(pool, order[..i])
              + if sig in pool && Entries(order[..i], sig) < pool[sig].leftover then [pool[sig].tx] else []
  {
    assert order[..i + 1][..i] == order[..i];
  }

  lemma PooledRequest(v: Schedule, sig: Signature)
    requires Indexed(v)
    ensures sig in v.pool ==> v.pool[sig].tx.signature == sig
  {
  }

  /** One round: the request at the front is handed over and queued again if it has an attempt left. */
  lemma FrontSends(v: Schedule, now: Instant)
    requires v.order != []
    ensures var sig, u := v.order[0].1, HandleFront(v, now);
            if sig in v.pool && v.pool[sig].leftover > 0
            then u.sent == v.sent + [v.pool[sig].tx] && u.order == v.order[1..] + [(now, sig)]
            else u.sent == v.sent && u.order == v.order[1..]
  {
  }

  lemma AgainAppends(now: Instant, sent: seq<Request>)
    ensures forall tx :: Again(now, sent + [tx]) == Again(now, sent) + [(now, tx.signature)]
  {
  }

  lemma {:induction false} ResentCount(v: Schedule, entries: seq<(Instant, Signature)>, sig: Signature)
    requires Indexed(v)
    ensures SendsOf(Resent(v.pool, entries), sig) == Min(LeftoverOf(v.pool, sig), Entries(entries, sig))
    decreases |entries|
  {
    if entries != [] {
      var n := |entries| - 1;
      var s := entries[n].1;
      ResentCount(v, entries[..n], sig);
      PooledRequest(v, s);
      if s in v.pool {
        SendsAppend(Resent(v.pool, entries[..n]), v.pool[s].tx, sig);
      }
      assert Resent(v.pool, entries[..n]) + [] == Resent(v.pool, entries[..n]);
    }
  }

  lemma {:induction false} SendsConcat(sent: seq<Request>, more: seq<Request>, sig: Signature)
    ensures SendsOf(sent + more, sig) == SendsOf(sent, sig) + SendsOf(more, sig)
    decreases |more|
  {
    if more == [] {
      assert sent + more == sent;
    } else {
      var n := |more| - 1;
      assert (sent + more)[..|sent + more| - 1] == sent + more[..n];
      SendsConcat(sent, more[..n], sig);
    }
  }

  /** What a pass sends, for any order and clock: of each transaction as often as it has due entries
      in front, as far as its attempts go, always the pooled request; each of these is queued
      again, in the same order, behind the entries that did not come up. */
  lemma PassResends(c: Config, v: Schedule, now: Instant, sig: Signature)
    requires Indexed(v) && c.retryRate > 0
    ensures DueCount(c, v.order, now) <= |v.order|
    ensures var k := DueCount(c, v.order, now);
            var u, more := Pass(c, v, now), Resent(v.pool, v.order[..k]);
            && u.sent == v.sent + more && u.order == v.order[k..] + Again(now, more)
            && (forall r :: r in more ==> r.signature in v.pool && r == v.pool[r.signature].tx)
            && SendsOf(u.sent, sig) == SendsOf(v.sent, sig) + Min(LeftoverOf(v.pool, sig), Entries(v.order[..k], sig))
            && LeftoverOf(u.pool, sig) == LeftoverOf(v.pool, sig) - Min(LeftoverOf(v.pool, sig), Entries(v.order[..k], sig))
  {
    hide Pass, Rounds, HandleFront, DueFirst, Due, Entries, Indexed, Resent;
    var k := DueCount(c, v.order, now);
    DuePrefix(c, v.order, now);
    PassLeavesNoneDue(c, v, now);
    RoundsSend(v, now, k);
    ResentPooled(v, v.order[..k]);
    ResentCount(v, v.order[..k], sig);
    SendsConcat(v.sent, Resent(v.pool, v.order[..k]), sig);
    RoundsRank(v, now, k, sig);
  }

  lemma {:induction false} ResentPooled(v: Schedule, entries: seq<(Instant, Signature)>)
    requires Indexed(v)
    ensures forall r :: r in Resent(v.pool, entries) ==> r.signature in v.pool && r == v.pool[r.signature].tx
    decreases |entries|
  {
    if entries != [] {
      var n := |entries| - 1;
      ResentPooled(v, entries[..n]);
      PooledRequest(v, entries[n].1);
    }
  }

  // ---------------------------------------------------------------- runs

  datatype Event =
    | Tick(now: Instant)
    | Arrived(tx: Request, now: Instant, ans: Answers)
    | Notified(sig: Signature, commitment: CommitmentLevel)

  ghost function Step(c: Config, v: Schedule, ev: Event): Schedule {
    match ev
    case Tick(now) => Pass(c, Collect(c, v), now)
    case Arrived(tx, now, ans) => Add(c, v, tx, now, ans)
    case Notified(sig, commitment) => Update(c, v, sig, commitment)
  }

  /** The state after the events. The clock readings of the events are free: a tick carries the
      time it was scheduled for, which may lie before an arrival taken first. */
  ghost function After(c: Config, v: Schedule, evs: seq<Event>): Schedule
    decreases |evs|
  {
    if evs == [] then v else After(c, Step(c, v, evs[0]), evs[1..])
  }

  ghost function Empty(): Schedule {
    Schedule(map[], map[], [], {}, 0, [], [], multiset{})
  }

  ghost predicate Inv(v: Schedule) {
    Indexed(v) && WithinBudget(v)
  }

  lemma CollectBudget(c: Config, v: Schedule)
    requires WithinBudget(v)
    ensures WithinBudget(Collect(c, v))
  {
    var u := Collect(c, v);
    forall s ensures SendsOf(u.sent, s) + LeftoverOf(u.pool, s) <= u.granted[s] {
      assert SendsOf(v.sent, s) + LeftoverOf(v.pool, s) <= v.granted[s];
    }
  }

  lemma UpdateInv(c: Config, v: Schedule, sig: Signature, commitment: CommitmentLevel)
    requires Inv(v)
    ensures Inv(Update(c, v, sig, commitment))
  {
    var u := Update(c, v, sig, commitment);
    forall s ensures SendsOf(u.sent, s) + LeftoverOf(u.pool, s) <= u.granted[s] {
      assert SendsOf(v.sent, s) + LeftoverOf(v.pool, s) <= v.granted[s];
    }
  }

  lemma LettersKeep(v: Schedule, height: nat, letters: seq<DeadLetter>)
    requires Inv(v)
    ensures Inv(v.(lastKnownHeight := height, letters := letters))
  {
    var u := v.(lastKnownHeight := height, letters := letters);
    forall s ensures SendsOf(u.sent, s) + LeftoverOf(u.pool, s) <= u.granted[s] {
      assert SendsOf(v.sent, s) + LeftoverOf(v.pool, s) <= v.granted[s];
    }
  }

  lemma AddInv(c: Config, v: Schedule, tx: Request, now: Instant, ans: Answers)
    requires Inv(v)
    ensures Inv(Add(c, v, tx, now, ans))
  {
    hide Indexed, WithinBudget;
    var u := v.(lastKnownHeight := CurrentHeight(ans));
    LettersKeep(v, CurrentHeight(ans), v.letters);
    LettersKeep(v, CurrentHeight(ans), v.letters + [ReachedMaxProcessingAge(tx.signature)]);
    LettersKeep(v, CurrentHeight(ans), v.letters + [AlreadyLanded(tx.signature)]);
    AdmitIndexed(c, u, tx, now, LastValid(c, ans));
    AdmitBudget(c, u, tx, now, LastValid(c, ans));
  }

  lemma {:induction false} PassInv(c: Config, v: Schedule, now: Instant)
    requires Inv(v)
    ensures Inv(Pass(c, v, now))
    decreases Work(v)
  {
    hide Indexed, WithinBudget, HandleFront;
    if v.order != [] && Due(c, v.order[0], now) {
      FrontUsesWork(v, now);
      FrontIndexed(v, now);
      FrontBudget(v, now);
      PassInv(c, HandleFront(v, now), now);
    }
  }

  /** Every event keeps both invariants, for any clock reading and any retry rate. */
  lemma StepInv(c: Config, v: Schedule, ev: Event)
    requires Inv(v)
    ensures Inv(Step(c, v, ev))
  {
    hide Indexed, WithinBudget, Collect, Pass, Add, Update;
    match ev
    case Tick(now) =>
      CollectIndexed(c, v);
      CollectBudget(c, v);
      PassInv(c, Collect(c, v), now);
    case Arrived(tx, now, ans) => AddInv(c, v, tx, now, ans);
    case Notified(sig, commitment) => UpdateInv(c, v, sig, commitment);
  }

  lemma {:induction false} RunInv(c: Config, v: Schedule, evs: seq<Event>)
    requires Inv(v)
    ensures Inv(After(c, v, evs))
    decreases |evs|
  {
    hide Inv, Step;
    if evs != [] {
      StepInv(c, v, evs[0]);
      RunInv(c, Step(c, v, evs[0]), evs[1..]);
    }
  }

  /** In every reachable state: what may be resent is watched and still in the insertion order;
      what is watched still has a deadline; and what was sent of a transaction, together with
      what may still be sent, is granted by the requests accepted for it. */
  lemma ReachableStates(c: Config, evs: seq<Event>, sig: Signature)
    ensures var v := After(c, Empty(), evs);
            && (sig in v.pool ==> sig in v.watched && exists i :: 0 <= i < |v.order| && v.order[i].1 == sig)
            && (sig in v.watched ==> exists h :: h in v.deadlines && sig in v.deadlines[h])
            && SendsOf(v.sent, sig) + LeftoverOf(v.pool, sig) <= v.granted[sig] == Granted(c, evs, sig)
  {
    hide Step;
    var v := After(c, Empty(), evs);
    RunInv(c, Empty(), evs);
    RunGrants(c, Empty(), evs, sig);
    if sig in v.pool {
      var e :| e in v.order && e.1 == sig;
    }
  }

  /** The attempts an accepted request allows: at least one, and otherwise what the request and
      the configuration both allow. */
  ghost function Grant(c: Config, ev: Event, sig: Signature): nat {
    if ev.Arrived? && ev.tx.signature == sig && Accepts(c, ev.ans) then Max(1, Retries(c, ev.tx)) else 0
  }

  ghost function Granted(c: Config, evs: seq<Event>, sig: Signature): nat
    decreases |evs|
  {
    if evs == [] then 0 else Granted(c, evs[1..], sig) + Grant(c, evs[0], sig)
  }

  lemma {:induction false} RunGrants(c: Config, v: Schedule, evs: seq<Event>, sig: Signature)
    ensures After(c, v, evs).granted[sig] == v.granted[sig] + Granted(c, evs, sig)
    decreases |evs|
  {
    hide Pass;
    if evs != [] {
      if evs[0].Tick? {
        PassGrants(c, Collect(c, v), evs[0].now);
      }
      RunGrants(c, Step(c, v, evs[0]), evs[1..], sig);
    }
  }

  lemma {:induction false} PassGrants(c: Config, v: Schedule, now: Instant)
    ensures Pass(c, v, now).granted == v.granted
    decreases Work(v)
  {
    if v.order != [] && Due(c, v.order[0], now) {
      FrontUsesWork(v, now);
      PassGrants(c, HandleFront(v, now), now);
    }
  }

  // ---------------------------------------------------------------- how often a transaction is sent

  ghost predicate Submits(c: Config, ev: Event, sig: Signature) {
    ev.Arrived? && ev.tx.signature == sig && Accepts(c, ev.ans)
  }

  ghost function Submissions(c: Config, evs: seq<Event>, sig: Signature): nat
    decreases |evs|
  {
    if evs == [] then 0 else Submissions(c, evs[1..], sig) + if Submits(c, evs[0], sig) then 1 else 0
  }

  ghost predicate Untried(v: Schedule, sig: Signature) {
    sig !in v.pool && SendsOf(v.sent, sig) == 0 && ReachedMaxRetries(sig) !in v.letters
  }

  /** Every attempt granted was made or is left; one reported as used up has made them all. */
  ghost predicate Spent(v: Schedule, sig: Signature, granted: nat) {
    && (sig in v.pool ==> SendsOf(v.sent, sig) + v.pool[sig].leftover == granted)
    && (ReachedMaxRetries(sig) in v.letters ==> sig !in v.pool && SendsOf(v.sent, sig) == granted)
  }

  lemma FrontSpends(v: Schedule, now: Instant, sig: Signature, granted: nat)
    requires Indexed(v) && v.order != []
    ensures Untried(v, sig) ==> Untried(HandleFront(v, now), sig)
    ensures Spent(v, sig, granted) ==> Spent(HandleFront(v, now), sig, granted)
  {
    var s := v.order[0].1;
    if s in v.pool {
      SendsAppend(v.sent, v.pool[s].tx, sig);
    }
  }

  lemma {:induction false} PassSpends(c: Config, v: Schedule, now: Instant, sig: Signature, granted: nat)
    requires Indexed(v)
    ensures Untried(v, sig) ==> Untried(Pass(c, v, now), sig)
    ensures Spent(v, sig, granted) ==> Spent(Pass(c, v, now), sig, granted)
    decreases Work(v)
  {
    hide HandleFront, Work, Indexed, Untried, Spent;
    if v.order != [] && Due(c, v.order[0], now) {
      FrontUsesWork(v, now);
      FrontIndexed(v, now);
      FrontSpends(v, now, sig, granted);
      PassSpends(c, HandleFront(v, now), now, sig, granted);
    }
  }

  lemma CollectSpends(c: Config, v: Schedule, sig: Signature, granted: nat)
    ensures Untried(v, sig) ==> Untried(Collect(c, v), sig)
    ensures Spent(v, sig, granted) ==> Spent(Collect(c, v), sig, granted)
  {
    hide SendsOf, Collected;
    var sigs := Collected(v.deadlines, Outdated(c, v.lastKnownHeight));
    assert forall l :: l in Aged(sigs) ==> l.ReachedMaxProcessingAge?;
  }

  lemma AddSpends(c: Config, v: Schedule, tx: Request, now: Instant, ans: Answers, sig: Signature, granted: nat)
    ensures var u := Add(c, v, tx, now, ans);
            if Accepts(c, ans) && tx.signature == sig
            then Untried(v, sig) ==> Spent(u, sig, Max(1, Retries(c, tx)))
            else (Untried(v, sig) ==> Untried(u, sig)) && (Spent(v, sig, granted) ==> Spent(u, sig, granted))
  {
    SendsAppend(v.sent, tx, sig);
  }

  lemma {:induction false} StepSpends(c: Config, v: Schedule, ev: Event, sig: Signature, granted: nat)
    requires Inv(v)
    ensures var u := Step(c, v, ev);
            if Submits(c, ev, sig) then Untried(v, sig) ==> Spent(u, sig, Grant(c, ev, sig))
            else (Untried(v, sig) ==> Untried(u, sig)) && (Spent(v, sig, granted) ==> Spent(u, sig, granted))
  {
    hide Collect, Pass, Add, Indexed, WithinBudget, Accepts, Retries;
    match ev
    case Tick(now) =>
      hide Untried, Spent;
      CollectSpends(c, v, sig, granted);
      CollectIndexed(c, v);
      PassSpends(c, Collect(c, v), now, sig, granted);
    case Arrived(tx, now, ans) =>
      hide Untried, Spent;
      AddSpends(c, v, tx, now, ans, sig, granted);
    case Notified(_, _) =>
  }

  lemma {:induction false} RunSpends(c: Config, v: Schedule, evs: seq<Event>, sig: Signature, granted: nat)
    requires Inv(v)
    ensures Untried(v, sig) && Submissions(c, evs, sig) == 1 ==> Spent(After(c, v, evs), sig, Granted(c, evs, sig))
    ensures Spent(v, sig, granted) && Submissions(c, evs, sig) == 0 ==> Spent(After(c, v, evs), sig, granted) && Granted(c, evs, sig) == 0
    decreases |evs|
  {
    if evs != [] {
      hide Step, Inv, Untried, Spent, Submits;
      var u := Step(c, v, evs[0]);
      StepInv(c, v, evs[0]);
      StepSpends(c, v, evs[0], sig, granted);
      GrantsOnSubmit(c, evs[0], sig);
      RunSpends(c, u, evs[1..], sig, if Submits(c, evs[0], sig) then Grant(c, evs[0], sig) else granted);
    }
  }

  lemma GrantsOnSubmit(c: Config, ev: Event, sig: Signature)
    ensures !Submits(c, ev, sig) ==> Grant(c, ev, sig) == 0
  {
  }

  lemma {:induction false} GrantedOnce(c: Config, evs: seq<Event>, sig: Signature, i: nat)
    requires Submissions(c, evs, sig) == 1 && i < |evs| && Submits(c, evs[i], sig)
    ensures Granted(c, evs, sig) == Grant(c, evs[i], sig)
    decreases |evs|
  {
    hide Submits, Grant;
    GrantsOnSubmit(c, evs[0], sig);
    if i == 0 {
      NothingGranted(c, evs[1..], sig);
    } else {
      assert evs[1..][i - 1] == evs[i];
      SubmissionFound(c, evs[1..], sig, i - 1);
      GrantedOnce(c, evs[1..], sig, i - 1);
    }
  }

  lemma {:induction false} NothingGranted(c: Config, evs: seq<Event>, sig: Signature)
    requires Submissions(c, evs, sig) == 0
    ensures Granted(c, evs, sig) == 0
    decreases |evs|
  {
    if evs != [] {
      GrantsOnSubmit(c, evs[0], sig);
      NothingGranted(c, evs[1..], sig);
    }
  }

  lemma {:induction false} SubmissionFound(c: Config, evs: seq<Event>, sig: Signature, i: nat)
    requires i < |evs| && Submits(c, evs[i], sig)
    ensures Submissions(c, evs, sig) >= 1
    decreases |evs|
  {
    if i > 0 {
      assert evs[1..][i - 1] == evs[i];
      SubmissionFound(c, evs[1..], sig, i - 1);
    }
  }

  /** A transaction accepted once, at event `i`: while it is pooled, what was sent and what is left
      add up to the number of attempts asked for and allowed, and at least one. If it is reported
      as having used them up, it was sent exactly that often. */
  lemma SentExactly(c: Config, evs: seq<Event>, sig: Signature, i: nat)
    requires i < |evs| && Submits(c, evs[i], sig) && Submissions(c, evs, sig) == 1
    ensures var v := After(c, Empty(), evs);
            var asked := if evs[i].tx.maxRetries.Some? then evs[i].tx.maxRetries.value else 0;
            var allowed := if asked <= c.maxRetry then asked else c.maxRetry;
            var attempts := if allowed >= 1 then allowed else 1;
            && (sig in v.pool ==> SendsOf(v.sent, sig) + v.pool[sig].leftover == attempts)
            && (ReachedMaxRetries(sig) in v.letters ==> sig !in v.pool && SendsOf(v.sent, sig) == attempts)
  {
    hide Step;
    RunSpends(c, Empty(), evs, sig, 0);
    GrantedOnce(c, evs, sig, i);
  }

  // ---------------------------------------------------------------- arrivals and expiry

  /** What becomes of an arriving request, by the answers of the services. */
  lemma ArrivalOutcome(c: Config, v: Schedule, tx: Request, now: Instant, ans: Answers)
    ensures var u := Step(c, v, Arrived(tx, now, ans));
            var height := if ans.height.Some? then ans.height.value else 0;
            var base := if ans.blockhashHeight.Some? then ans.blockhashHeight.value else height;
            && u.lastKnownHeight == height
            && if base + c.maxProcessingAge < height then
                 u == v.(lastKnownHeight := height, letters := v.letters + [ReachedMaxProcessingAge(tx.signature)])
               else if ans.commitment.Some? && (ans.commitment.value == c.stopOn || ans.commitment.value == Finalized || c.stopOn == Processed) then
                 u == v.(lastKnownHeight := height, letters := v.letters + [AlreadyLanded(tx.signature)])
               else
                 && u.sent == v.sent + [tx] && u.order == v.order + [(now, tx.signature)]
                 && tx.signature in u.pool && u.pool[tx.signature].tx == tx && tx.signature in u.watched
                 && base + c.maxProcessingAge in u.deadlines && tx.signature in u.deadlines[base + c.maxProcessingAge]
  {
    hide Admit;
    var height := CurrentHeight(ans);
    AdmitRecords(c, v.(lastKnownHeight := height), tx, now, LastValid(c, ans));
  }

  lemma AdmitRecords(c: Config, v: Schedule, tx: Request, now: Instant, lastValid: nat)
    ensures var u := Admit(c, v, tx, now, lastValid);
            && u.lastKnownHeight == v.lastKnownHeight && u.sent == v.sent + [tx] && u.order == v.order + [(now, tx.signature)]
            && tx.signature in u.pool && u.pool[tx.signature].tx == tx && tx.signature in u.watched
            && lastValid in u.deadlines && tx.signature in u.deadlines[lastValid]
  {
  }

  /** The signature has a deadline more than the processing age behind the last known height. */
  ghost predicate Expired(c: Config, v: Schedule, sig: Signature) {
    exists h :: h in v.deadlines && sig in v.deadlines[h] && h + c.maxProcessingAge < v.lastKnownHeight
  }

  lemma {:induction false} PassKeepsWatch(c: Config, v: Schedule, now: Instant)
    ensures Pass(c, v, now).watched == v.watched && Pass(c, v, now).deadlines == v.deadlines
    ensures Pass(c, v, now).pool.Keys <= v.pool.Keys && v.letters <= Pass(c, v, now).letters
    decreases Work(v)
  {
    if v.order != [] && Due(c, v.order[0], now) {
      FrontUsesWork(v, now);
      PassKeepsWatch(c, HandleFront(v, now), now);
    }
  }

  /** A tick stops watching exactly the transactions with an expired deadline, takes them out of the
      pool, and reports them as too old. */
  lemma TickExpires(c: Config, v: Schedule, now: Instant, sig: Signature)
    ensures var u := Step(c, v, Tick(now));
            && (sig in u.watched <==> sig in v.watched && !Expired(c, v, sig)) && v.letters <= u.letters
            && (Expired(c, v, sig) ==> sig !in u.pool && ReachedMaxProcessingAge(sig) in u.letters[|v.letters|..])
  {
    hide Pass;
    var h := Outdated(c, v.lastKnownHeight);
    var sigs := Collected(v.deadlines, h);
    var w := Collect(c, v);
    var u := Step(c, v, Tick(now));
    CollectedSignatures(v.deadlines, h, sig);
    PassKeepsWatch(c, w, now);
    assert Expired(c, v, sig) <==> sig in sigs;
    if sig in sigs {
      var i :| 0 <= i < |sigs| && sigs[i] == sig;
      assert Aged(sigs)[i] == ReachedMaxProcessingAge(sig);
      assert u.letters[|v.letters| + i] == w.letters[|v.letters| + i] == ReachedMaxProcessingAge(sig);
      assert u.letters[|v.letters|..][i] == ReachedMaxProcessingAge(sig);
    }
  }

  // ---------------------------------------------------------------- how long a transaction stays

  /** The ticks of a run in which the transaction is still in the pool and comes up. */
  ghost function Turns(c: Config, v: Schedule, evs: seq<Event>, sig: Signature): nat
    decreases |evs|
  {
    if evs == [] then 0
    else Turns(c, Step(c, v, evs[0]), evs[1..], sig) + if ComesUp(c, v, evs[0], sig) then 1 else 0
  }

  /** The transaction has an entry among the due ones in front. */
  ghost predicate ComesUp(c: Config, v: Schedule, ev: Event, sig: Signature) {
    && ev.Tick? && sig in Collect(c, v).pool
    && exists i :: 0 <= i < |v.order| && i < DueCount(c, v.order, ev.now) && v.order[i].1 == sig
  }

  /** Where no due entry stands behind one that is not due, every due entry comes up. */
  lemma DueComesUp(c: Config, v: Schedule, now: Instant, sig: Signature)
    requires DueFirst(c, v.order, now)
    ensures ComesUp(c, v, Tick(now), sig) <==>
            sig in Collect(c, v).pool && exists i :: 0 <= i < |v.order| && v.order[i].1 == sig && Due(c, v.order[i], now)
  {
    hide Collect;
    DuePrefix(c, v.order, now);
  }

  lemma StepRank(c: Config, v: Schedule, ev: Event, sig: Signature)
    requires c.retryRate > 0 && !(ev.Arrived? && ev.tx.signature == sig)
    ensures Rank(Step(c, v, ev), sig) + (if ComesUp(c, v, ev, sig) then 1 else 0) <= Rank(v, sig)
  {
    hide Pass;
    if ev.Tick? {
      var u := Collect(c, v);
      PassLowersRank(c, u, ev.now, sig);
      if ComesUp(c, v, ev, sig) {
        var n := DueCount(c, v.order, ev.now);
        var i :| 0 <= i < |v.order| && i < n && v.order[i].1 == sig;
        EntriesFound(v.order[..n], sig, i);
      }
    }
  }

  /** A transaction that is not submitted again comes up in at most `leftover + 1` ticks, whatever
      else happens, and is out of the pool after the last of them. */
  lemma {:induction false} LeavesPoolInTime(c: Config, v: Schedule, evs: seq<Event>, sig: Signature)
    requires c.retryRate > 0
    requires forall i :: 0 <= i < |evs| ==> !(evs[i].Arrived? && evs[i].tx.signature == sig)
    ensures Turns(c, v, evs, sig) + Rank(After(c, v, evs), sig) <= Rank(v, sig)
    ensures Turns(c, v, evs, sig) == Rank(v, sig) ==> sig !in After(c, v, evs).pool
    decreases |evs|
  {
    hide Step, ComesUp;
    if evs != [] {
      StepRank(c, v, evs[0], sig);
      LeavesPoolInTime(c, Step(c, v, evs[0]), evs[1..], sig);
    }
  }

  // ---------------------------------------------------------------- ticks in time and late ticks

  ghost predicate Sorted(order: seq<(Instant, Signature)>) {
    forall i, j :: 0 <= i < j < |order| ==> order[i].0 <= order[j].0
  }

  /** No event of the run reads a clock behind an entry of the order. */
  ghost predicate Steady(c: Config, v: Schedule, evs: seq<Event>)
    decreases |evs|
  {
    evs == [] || (
      && (evs[0].Notified? || forall i :: 0 <= i < |v.order| ==> v.order[i].0 <= evs[0].now)
      && Steady(c, Step(c, v, evs[0]), evs[1..]))
  }

  lemma RequeuedSorted(old': seq<(Instant, Signature)>, i: nat, order: seq<(Instant, Signature)>, now: Instant)
    requires Sorted(old') && Requeued(old', i, order, now) && forall j :: 0 <= j < |old'| ==> old'[j].0 <= now
    ensures Sorted(order)
  {
    var n := |old'| - i;
    assert forall j :: 0 <= j < n ==> order[j] == order[..n][j] == old'[i + j];
  }

  lemma {:induction false} SteadySorted(c: Config, v: Schedule, evs: seq<Event>)
    requires c.retryRate > 0 && Sorted(v.order) && Steady(c, v, evs)
    ensures Sorted(After(c, v, evs).order)
    decreases |evs|
  {
    hide Pass, Rounds;
    if evs != [] {
      if evs[0].Tick? {
        var u := Collect(c, v);
        var k := DueCount(c, u.order, evs[0].now);
        PassLeavesNoneDue(c, u, evs[0].now);
        DuePrefix(c, u.order, evs[0].now);
        RoundsRequeue(u, evs[0].now, k);
        RequeuedSorted(u.order, k, Rounds(u, evs[0].now, k).order, evs[0].now);
      }
      SteadySorted(c, Step(c, v, evs[0]), evs[1..]);
    }
  }

  /** In a run whose clock does not go back, every tick handles all due entries. */
  lemma SteadyTicksLeaveNoneDue(c: Config, evs: seq<Event>, now: Instant)
    requires c.retryRate > 0 && Steady(c, Empty(), evs)
    ensures forall e :: e in Step(c, After(c, Empty(), evs), Tick(now)).order ==> !Due(c, e, now)
  {
    hide Pass;
    var v := After(c, Empty(), evs);
    SteadySorted(c, Empty(), evs);
    PassLeavesNoneDue(c, Collect(c, v), now);
  }

  /** An arrival taken before an earlier tick keeps a due entry waiting: the tick of time 10 is
      taken after the arrival of time 13 and queues behind it; at time 20 the entry of time 10 is
      due, but the one of time 13 in front is not. */
  lemma LateTickLeavesDue(a: Signature, b: Signature)
    requires a != b
    ensures var c := Config(10, Confirmed, 3, 150);
            var order := After(c, Empty(), LateTick(a, b)).order;
            order == [(13, b), (10, a)] && Due(c, order[1], 20)
  {
    hide Collect, Pass, Add;
    var c := Config(10, Confirmed, 3, 150);
    var evs := LateTick(a, b);
    var v0 := Step(c, Empty(), evs[0]);
    var v1 := Step(c, v0, evs[1]);
    BothArrived(a, b);
    assert evs[1..][1..] == [Tick(10), Tick(20)] && [Tick(10), Tick(20)][1..] == [Tick(20)];
    assert After(c, v1, [Tick(10), Tick(20)]) == After(c, Step(c, v1, Tick(10)), [Tick(20)]);
    LateTicks(c, v1, a, b);
    var v2 := Step(c, v1, Tick(10));
    assert After(c, v2, [Tick(20)]) == After(c, Step(c, v2, Tick(20)), []);
  }

  function LateTick(a: Signature, b: Signature): seq<Event> {
    var ans := Answers(None, None, None);
    [Arrived(Request(a, Some(3)), 0, ans), Arrived(Request(b, Some(3)), 13, ans), Tick(10), Tick(20)]
  }

  lemma BothArrived(a: Signature, b: Signature)
    requires a != b
    ensures var c := Config(10, Confirmed, 3, 150);
            var v := Step(c, Step(c, Empty(), LateTick(a, b)[0]), LateTick(a, b)[1]);
            && v.order == [(0, a), (13, b)] && v.lastKnownHeight == 0
            && a in v.pool && b in v.pool && v.pool[a].leftover == 2
  {
  }

  lemma LateTicks(c: Config, v: Schedule, a: Signature, b: Signature)
    requires c.retryRate == 10 && v.order == [(0, a), (13, b)] && v.lastKnownHeight == 0
    requires a in v.pool && v.pool[a].leftover == 2
    ensures Step(c, Step(c, v, Tick(10)), Tick(20)).order == [(13, b), (10, a)]
  {
    hide Collect;
    NothingOutdated(c, v);
    var u := HandleFront(v, 10);
    assert Pass(c, v, 10) == Pass(c, u, 10) == u;
    NothingOutdated(c, u);
    assert Pass(c, u, 20) == u;
  }

  lemma NothingOutdated(c: Config, v: Schedule)
    requires Outdated(c, v.lastKnownHeight) == 0
    ensures Collect(c, v) == v
  {
    assert From(v.deadlines, 0) == v.deadlines;
    NoneCollected(v);
  }

  // ---------------------------------------------------------------- why a transaction leaves

  /** The scheduler reports that it gave the transaction up. */
  predicate GivesUp(letter: DeadLetter, sig: Signature) {
    !letter.AlreadyLanded? && letter.sig == sig
  }

  ghost predicate GivenUp(letters: seq<DeadLetter>, from: nat, sig: Signature) {
    exists i :: from <= i < |letters| && GivesUp(letters[i], sig)
  }

  /** The part of a step that matters to one transaction: letters are only added, and the
      transaction leaves the pool exactly if one of them gives it up. */
  ghost predicate Leaves(v: Schedule, u: Schedule, sig: Signature) {
    && v.letters <= u.letters
    && (sig in u.pool <==> sig in v.pool && !GivenUp(u.letters, |v.letters|, sig))
  }

  lemma FrontLeaves(v: Schedule, now: Instant, sig: Signature)
    requires v.order != []
    ensures Leaves(v, HandleFront(v, now), sig)
  {
    var s := v.order[0].1;
    var u := HandleFront(v, now);
    if s in v.pool && v.pool[s].leftover == 0 {
      assert u.letters[|v.letters|] == ReachedMaxRetries(s);
    }
  }

  lemma GivenUpSplit(letters: seq<DeadLetter>, more: seq<DeadLetter>, from: nat, sig: Signature)
    requires letters <= more && from <= |letters|
    ensures GivenUp(more, from, sig) <==> GivenUp(letters, from, sig) || GivenUp(more, |letters|, sig)
  {
    assert forall i :: 0 <= i < |letters| ==> more[i] == letters[i];
    if GivenUp(letters, from, sig) {
      var i :| from <= i < |letters| && GivesUp(letters[i], sig);
      assert GivesUp(more[i], sig);
    }
  }

  lemma LeavesTransitive(v: Schedule, u: Schedule, w: Schedule, sig: Signature)
    requires Leaves(v, u, sig) && Leaves(u, w, sig)
    ensures Leaves(v, w, sig)
  {
    GivenUpSplit(u.letters, w.letters, |v.letters|, sig);
  }

  lemma {:induction false} PassLeaves(c: Config, v: Schedule, now: Instant, sig: Signature)
    ensures Leaves(v, Pass(c, v, now), sig)
    decreases Work(v)
  {
    hide HandleFront, Work;
    if v.order != [] && Due(c, v.order[0], now) {
      FrontUsesWork(v, now);
      FrontLeaves(v, now, sig);
      PassLeaves(c, HandleFront(v, now), now, sig);
      LeavesTransitive(v, HandleFront(v, now), Pass(c, v, now), sig);
    }
  }

  lemma CollectLeaves(c: Config, v: Schedule, sig: Signature)
    ensures Leaves(v, Collect(c, v), sig)
  {
    var sigs := Collected(v.deadlines, Outdated(c, v.lastKnownHeight));
    var u := Collect(c, v);
    var n := |v.letters|;
    assert forall i :: 0 <= i < |sigs| ==> u.letters[n + i] == ReachedMaxProcessingAge(sigs[i]);
    if sig in sigs {
      var i :| 0 <= i < |sigs| && sigs[i] == sig;
      assert GivesUp(u.letters[n + i], sig);
    } else {
      forall i | n <= i < |u.letters| ensures !GivesUp(u.letters[i], sig) {
        assert u.letters[i] == ReachedMaxProcessingAge(sigs[i - n]);
      }
    }
  }

  lemma StepLeaves(c: Config, v: Schedule, ev: Event, sig: Signature)
    ensures v.letters <= Step(c, v, ev).letters
    ensures sig in v.pool && ev != Notified(sig, c.stopOn) && sig !in Step(c, v, ev).pool
            ==> GivenUp(Step(c, v, ev).letters, |v.letters|, sig)
    ensures !(ev.Arrived? && ev.tx.signature == sig) && ev != Notified(sig, c.stopOn) ==> Leaves(v, Step(c, v, ev), sig)
    ensures ev == Notified(sig, c.stopOn) ==> sig !in Step(c, v, ev).pool
  {
    hide Collect, Pass;
    if ev.Tick? {
      var u := Collect(c, v);
      CollectLeaves(c, v, sig);
      PassLeaves(c, u, ev.now, sig);
      LeavesTransitive(v, u, Pass(c, u, ev.now), sig);
    }
  }

  lemma {:induction false} LettersGrow(c: Config, v: Schedule, evs: seq<Event>, sig: Signature)
    ensures v.letters <= After(c, v, evs).letters
    decreases |evs|
  {
    hide Step;
    if evs != [] {
      StepLeaves(c, v, evs[0], sig);
      LettersGrow(c, Step(c, v, evs[0]), evs[1..], sig);
    }
  }

  /** Unless a notification names exactly the configured level, a transaction leaves the pool only
      with a letter that gives it up: neither notifications of other levels, higher ones included,
      nor submitting it again takes it out. */
  lemma {:induction false} LeavesPoolWithLetter(c: Config, v: Schedule, evs: seq<Event>, sig: Signature)
    requires sig in v.pool && Notified(sig, c.stopOn) !in evs
    ensures v.letters <= After(c, v, evs).letters
    ensures sig !in After(c, v, evs).pool ==> GivenUp(After(c, v, evs).letters, |v.letters|, sig)
    decreases |evs|
  {
    hide Step, GivenUp;
    LettersGrow(c, v, evs, sig);
    if evs != [] {
      var u := Step(c, v, evs[0]);
      StepLeaves(c, v, evs[0], sig);
      LettersGrow(c, u, evs[1..], sig);
      GivenUpSplit(u.letters, After(c, v, evs).letters, |v.letters|, sig);
      if sig in u.pool {
        LeavesPoolWithLetter(c, u, evs[1..], sig);
      }
    }
  }

  /** A transaction that is not submitted again is still in the pool if and only if it was there,
      no notification named exactly the configured level, and no letter gave it up. */
  lemma {:induction false} StaysInPool(c: Config, v: Schedule, evs: seq<Event>, sig: Signature)
    requires forall i :: 0 <= i < |evs| ==> !(evs[i].Arrived? && evs[i].tx.signature == sig)
    ensures v.letters <= After(c, v, evs).letters
    ensures sig in After(c, v, evs).pool <==>
            sig in v.pool && Notified(sig, c.stopOn) !in evs && !GivenUp(After(c, v, evs).letters, |v.letters|, sig)
    decreases |evs|
  {
    if evs == [] {
    } else {
      hide Step, GivenUp;
      var u := Step(c, v, evs[0]);
      StepLeaves(c, v, evs[0], sig);
      StaysInPool(c, u, evs[1..], sig);
      GivenUpSplit(u.letters, After(c, v, evs).letters, |v.letters|, sig);
      assert evs == [evs[0]] + evs[1..];
    }
  }

  /** A landing notification stops the resending exactly if it names the configured level: one
      for a higher level is ignored, unlike on arrival, where any higher level counts. */
  lemma StopsOnExactLevel(c: Config, v: Schedule, sig: Signature, commitment: CommitmentLevel, ans: Answers)
    requires sig in v.pool && ans.commitment == Some(commitment)
    ensures sig !in Update(c, v, sig, commitment).pool <==> commitment == c.stopOn
    ensures Landed(c, ans) <==> commitment.Rank() >= c.stopOn.Rank()
    ensures sig !in Update(c, v, sig, commitment).pool ==> Landed(c, ans)
  {
  }

  // ---------------------------------------------------------------- the scheduler object

  lemma NothingBetween(deadlines: map<nat, seq<Signature>>, low: nat, high: nat)
    requires low <= high && forall k :: low <= k < high ==> k !in deadlines
    ensures Collected(deadlines, high) == Collected(deadlines, low)
    decreases high - low
  {
    if low < high {
      NothingBetween(deadlines, low, high - 1);
      assert Collected(deadlines, high - 1) + [] == Collected(deadlines, high - 1);
    }
  }

  lemma AgedAppend(sigs: seq<Signature>, more: seq<Signature>, i: nat)
    requires i < |more|
    ensures Aged(sigs + more[..i + 1]) == Aged(sigs + more[..i]) + [ReachedMaxProcessingAge(more[i])]
    ensures Elements(sigs + more[..i + 1]) == Elements(sigs + more[..i]) + {more[i]}
  {
    assert sigs + more[..i + 1] == sigs + more[..i] + [more[i]];
  }

  class TransactionRetrySchedulerRuntime {
    const config: Config
    var txPool: map<Signature, Retryable>
    var blockHeightDeadlineMap: map<nat, seq<Signature>>
    var insertionOrder: seq<(Instant, Signature)>
    var watchedSignatures: set<Signature>
    var lastKnownBlockHeight: nat
    var responseSink: seq<Request>
    var dlq: seq<DeadLetter>
    ghost var granted: multiset<Signature>

    ghost function View(): Schedule
      reads this
    {
      Schedule(txPool, blockHeightDeadlineMap, insertionOrder, watchedSignatures, lastKnownBlockHeight, responseSink, dlq, granted)
    }

    constructor (config: Config)
      ensures this.config == config && View() == Empty()
    {
      this.config := config;
      txPool, blockHeightDeadlineMap, insertionOrder, watchedSignatures := map[], map[], [], {};
      lastKnownBlockHeight, responseSink, dlq, granted := 0, [], [], multiset{};
    }

    method ResendFront(now: Instant)
      requires insertionOrder != []
      modifies this`txPool, this`insertionOrder, this`responseSink, this`dlq
      ensures View() == HandleFront(old(View()), now)
    {
      var signature := insertionOrder[0].1;
      insertionOrder := insertionOrder[1..];
      if signature in txPool {
        var rtx := txPool[signature];
        if rtx.leftover > 0 {
          txPool := txPool[signature := rtx.(leftover := rtx.leftover - 1)];
          responseSink := responseSink + [rtx.tx];
          insertionOrder := insertionOrder + [(now, signature)];
        } else {
          txPool := txPool - {signature};
          dlq := dlq + [ReachedMaxRetries(signature)];
        }
      }
    }

    /** Resends what is due. The loop ends for any clock and any retry rate. */
    method ResendNonLandedTx(now: Instant)
      modifies this`txPool, this`insertionOrder, this`responseSink, this`dlq
      ensures View() == Pass(config, old(View()), now)
    {
      hide HandleFront, Work;
      while insertionOrder != [] && Due(config, insertionOrder[0], now)
        invariant Pass(config, View(), now) == old(Pass(config, View(), now))
        decreases Work(View())
      {
        FrontUsesWork(View(), now);
        ResendFront(now);
      }
    }

    method CollectSignature(signature: Signature)
      modifies this`txPool, this`watchedSignatures, this`dlq
      ensures View() == old(View()).(pool := old(txPool) - {signature}, watched := old(watchedSignatures) - {signature},
                                     letters := old(dlq) + [ReachedMaxProcessingAge(signature)])
    {
      txPool := txPool - {signature};
      watchedSignatures := watchedSignatures - {signature};
      dlq := dlq + [ReachedMaxProcessingAge(signature)];
    }

    /** Collects one bucket of signatures after those of `before`. */
    method CollectBucket(bucket: seq<Signature>, ghost before: seq<Signature>, ghost v: Schedule)
      requires View() == v.(pool := v.pool - Elements(before), watched := v.watched - Elements(before), letters := v.letters + Aged(before))
      modifies this`txPool, this`watchedSignatures, this`dlq
      ensures var all := before + bucket;
              View() == v.(pool := v.pool - Elements(all), watched := v.watched - Elements(all), letters := v.letters + Aged(all))
    {
      assert before + bucket[..0] == before;
      for i := 0 to |bucket|
        invariant var done := before + bucket[..i];
          View() == v.(pool := v.pool - Elements(done), watched := v.watched - Elements(done), letters := v.letters + Aged(done))
      {
        AgedAppend(before, bucket, i);
        CollectSignature(bucket[i]);
      }
      assert bucket[..|bucket|] == bucket;
    }

    method GcDeadlineMap()
      modifies this`txPool, this`watchedSignatures, this`dlq, this`blockHeightDeadlineMap
      ensures View() == Collect(config, old(View()))
    {
      hide Elements, Aged;
      var outdated := Outdated(config, lastKnownBlockHeight);
      var deprecated := map k | k in blockHeightDeadlineMap && k < outdated :: blockHeightDeadlineMap[k];
      ghost var deadlines := blockHeightDeadlineMap;
      blockHeightDeadlineMap := From(blockHeightDeadlineMap, outdated);
      ghost var v := View();
      ghost var low := 0;
      NoneCollected(v);
      while deprecated != map[]
        invariant low <= outdated
        invariant forall k :: k in deprecated <==> k in deadlines && low <= k < outdated
        invariant forall k :: k in deprecated ==> deprecated[k] == deadlines[k]
        invariant var sigs := Collected(deadlines, low);
          View() == v.(pool := v.pool - Elements(sigs), watched := v.watched - Elements(sigs), letters := v.letters + Aged(sigs))
        decreases deprecated.Keys
      {
        var h := LeastKey(deprecated);
        NothingBetween(deadlines, low, h);
        CollectBucket(deprecated[h], Collected(deadlines, h), v);
        low := h + 1;
        assert (deprecated - {h}).Keys < deprecated.Keys;
        deprecated := deprecated - {h};
      }
      NothingBetween(deadlines, low, outdated);
    }

    method HandleTxCommitmentUpdate(signature: Signature, commitment: CommitmentLevel)
      modifies this`txPool
      ensures View() == Update(config, old(View()), signature, commitment)
    {
      if commitment == config.stopOn {
        txPool := txPool - {signature};
      }
    }

    method AdmitTransaction(tx: Request, now: Instant, lastValid: nat)
      modifies this
      ensures View() == Admit(config, old(View()), tx, now, lastValid)
    {
      var signature := tx.signature;
      watchedSignatures := watchedSignatures + {signature};
      txPool := txPool[signature := Retryable(tx, Saturating(Retries(config, tx) - 1))];
      blockHeightDeadlineMap := Push(blockHeightDeadlineMap, lastValid, signature);
      responseSink := responseSink + [tx];
      insertionOrder := insertionOrder + [(now, signature)];
      granted := granted[signature := granted[signature] + Max(1, Retries(config, tx))];
    }

    method AddNewTransaction(tx: Request, now: Instant, ans: Answers)
      modifies this
      ensures View() == Add(config, old(View()), tx, now, ans)
    {
      hide Admit;
      var currentBlockHeight := CurrentHeight(ans);
      lastKnownBlockHeight := currentBlockHeight;
      var lastValidBlockHeight := LastValid(config, ans);
      if lastValidBlockHeight < currentBlockHeight {
        dlq := dlq + [ReachedMaxProcessingAge(tx.signature)];
        return;
      }
      if Landed(config, ans) {
        dlq := dlq + [AlreadyLanded(tx.signature)];
        return;
      }
      AdmitTransaction(tx, now, lastValidBlockHeight);
    }
  }

  lemma NoneCollected(v: Schedule)
    ensures Elements<Signature>([]) == {} && Aged([]) == [] && Collected(v.deadlines, 0) == []
    ensures v.pool - Elements([]) == v.pool && v.watched - Elements([]) == v.watched && v.letters + Aged([]) == v.letters
  {
  }
}
