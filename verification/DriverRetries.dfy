/** Failures in a row: how often a connection attempt is made again, and when its peers are given up. */
module DriverRetries {
  import opened Types
  import opened DriverState
  import opened DriverInvariant
  import opened DriverSteps
  import opened DriverAsking
  import opened DriverRuns
  import opened DriverTheorems
  import opened DriverEffects
  import opened DriverOrigins

  /** An attempt with number `n` to the address is under way for the peer. */
  ghost predicate Attempts(s: State, p: Pubkey, a: SocketAddr, n: nat) {
    p in s.dialPeers && s.dialPeers[p] in s.dials && s.dials[s.dialPeers[p]].addr == a && s.dials[s.dialPeers[p]].attempt == n
  }

  /** The event ends the attempt of the peer. */
  ghost predicate Ends(s: State, ev: Event, p: Pubkey) {
    p in s.dialPeers && Finishes(ev, s.dialPeers[p])
  }

  /** The address of the peer stays `a`: if its attempt ends, it has failed, and whoever of its peers
      is looked up at `a` is still there; in an identity update nobody has moved. */
  ghost predicate Undisturbed(s: State, ev: Event, p: Pubkey, a: SocketAddr)
    requires Enabled(s, ev)
  {
    match ev
    case ConnectingDone(id, outcome, ans) =>
      Ends(s, ev, p) ==>
        && outcome.ConnectionFailed? && ans.dest(p) == Some(a) && ans.again(p) == Some(a)
        && forall q :: q in s.dials[id].peers && ans.again(q) == Some(a) ==> ans.dest(q) == Some(a)
    case IdentityUpdated(_, _, ans) =>
      forall q :: q in s.dialPeers && s.dialPeers[q] in s.dials ==> ans.dest(q) == Some(s.dials[s.dialPeers[q]].addr)
    case _ => true
  }

  /** What waits for the peer still waits, in its order. */
  ghost predicate QueueGrows(s: State, t: State, p: Pubkey) {
    p in s.queues ==> p in t.queues && s.queues[p] <= t.queues[p]
  }

  // ---------------------------------------------------------------- one event

  lemma {:induction false} DialedAddress(c: Config, s: State, p: Pubkey, a: SocketAddr, n: nat)
    requires Inv(c, s) && Attempts(s, p, a, n)
    ensures var id := s.dialPeers[p];
            && p in s.dials[id].peers && a !in s.conns && !PendingAt(s, a) && a in s.dialAddrs && s.dialAddrs[a] == id
            && (forall i :: i in s.dials && s.dials[i].addr == a ==> i == id)
            && 1 <= n <= Max(1, c.maxConnectionAttempts)
  {
    var id := s.dialPeers[p];
    assert PeerDials(p, s.dials, s.dialPeers);
    assert DialCurrent(c, id, s.dials, s.identity);
    forall i | i in s.dials && s.dials[i].addr == a ensures i in s.dials && a in s.dialAddrs && s.dialAddrs[a] == i {
      assert DialOk(i, s.dials, s.dialPeers, s.dialAddrs, s.nextTask);
    }
    forall e | e in s.pending ensures e.addr in s.conns {
      assert PendingOk(e, s.conns);
    }
  }

  /** A failure with attempts left: the next attempt has the next number. */
  lemma {:induction false} FailureGoesOn(c: Config, s: State, ev: Event, p: Pubkey, a: SocketAddr, n: nat)
    requires At(c, s) && Enabled(s, ev) && Attempts(s, p, a, n) && Ends(s, ev, p) && Undisturbed(s, ev, p, a)
    requires n < c.maxConnectionAttempts
    ensures Attempts(Step(c, s, ev), p, a, n + 1) && SameQueue(s, Step(c, s, ev), p)
  {
    hide At, Inv, Step, PendingAt;
    var id, t := s.dialPeers[p], Step(c, s, ev);
    ReachableAt(c, s);
    DialedAddress(c, s, p, a, n);
    FailureIsRetried(c, s, id, ev.ans, p);
    FailureIsCounted(c, s, id, ev.ans, t.dialPeers[p]);
  }

  /** Any other event leaves the attempt as it is. */
  lemma {:induction false} OthersLeaveIt(c: Config, s: State, ev: Event, p: Pubkey, a: SocketAddr, n: nat)
    requires At(c, s) && Enabled(s, ev) && Attempts(s, p, a, n) && !Ends(s, ev, p) && !ev.IdentityUpdated?
    ensures Attempts(Step(c, s, ev), p, a, n) && QueueGrows(s, Step(c, s, ev), p)
  {
    hide At, Step, Enabled, Frame, Outcome, Started, OrphansFrom, WorkersFrom;
    var m, peers, r := StepOrigins(c, s, ev);
    assert Still(m, Step(c, s, ev), p);
    assert GoesOn(m, Step(c, s, ev), s.dialPeers[p]);
  }

  /** An identity update replays the attempt with its number. */
  lemma {:induction false} UpdateLeavesIt(c: Config, s: State, ev: Event, p: Pubkey, a: SocketAddr, n: nat)
    requires At(c, s) && Enabled(s, ev) && Attempts(s, p, a, n) && ev.IdentityUpdated? && Undisturbed(s, ev, p, a)
    ensures Attempts(Step(c, s, ev), p, a, n)
  {
    hide At, Inv, Step, Enabled;
    ReachableAt(c, s);
    DialedAddress(c, s, p, a, n);
    IdentityUpdateReplays(c, s, ev.identity, ev.order, ev.ans, p);
    var t := Step(c, s, ev);
    var q :| FirstThere(s, ev.ans, t.dials[t.dialPeers[p]], q);
    assert s.dials[s.dialPeers[q]].addr == a;
  }

  lemma {:induction false} StepCounts(c: Config, s: State, ev: Event, p: Pubkey, a: SocketAddr, n: nat)
    requires At(c, s) && Enabled(s, ev) && Attempts(s, p, a, n) && Undisturbed(s, ev, p, a)
    requires Ends(s, ev, p) ==> n < c.maxConnectionAttempts
    ensures Attempts(Step(c, s, ev), p, a, if Ends(s, ev, p) then n + 1 else n)
    ensures !ev.IdentityUpdated? ==> QueueGrows(s, Step(c, s, ev), p)
  {
    hide At, Step, Enabled, Attempts, Undisturbed;
    if Ends(s, ev, p) {
      FailureGoesOn(c, s, ev, p, a, n);
    } else if ev.IdentityUpdated? {
      UpdateLeavesIt(c, s, ev, p, a, n);
    } else {
      OthersLeaveIt(c, s, ev, p, a, n);
    }
  }

  // ---------------------------------------------------------------- runs

  /** How often the attempt of the peer ends in the run. */
  ghost function Failures(c: Config, s: State, evs: seq<Event>, p: Pubkey): nat
    requires Runs(c, s, evs)
    decreases |evs|
  {
    if evs == [] then 0
    else Failures(c, Step(c, s, evs[0]), evs[1..], p) + if Ends(s, evs[0], p) then 1 else 0
  }

  /** The address of the peer stays `a` throughout the run. */
  ghost predicate InARow(c: Config, s: State, evs: seq<Event>, p: Pubkey, a: SocketAddr)
    requires Runs(c, s, evs)
    decreases |evs|
  {
    evs != [] ==> Undisturbed(s, evs[0], p, a) && InARow(c, Step(c, s, evs[0]), evs[1..], p, a)
  }

  /** As long as failures in a row have not used up the attempts, each is followed by an attempt with
      the next number, and nothing that waits for the peer is dropped. */
  lemma {:induction false} FailuresAreCounted(c: Config, s: State, evs: seq<Event>, t: State, p: Pubkey, a: SocketAddr, n: nat)
    requires At(c, s) && Run(c, s, evs, t) && Runs(c, s, evs) && InARow(c, s, evs, p, a)
    requires Attempts(s, p, a, n) && n + Failures(c, s, evs, p) <= Max(1, c.maxConnectionAttempts)
    ensures At(c, t) && Attempts(t, p, a, n + Failures(c, s, evs, p))
    ensures (forall i :: 0 <= i < |evs| ==> !evs[i].IdentityUpdated?) ==> QueueGrows(s, t, p)
    decreases |evs|
  {
    hide At, Step, Enabled, Attempts, Undisturbed, Ends;
    if evs != [] {
      var u := Step(c, s, evs[0]);
      AtLeastOne(c, s, p, a, n);
      StepCounts(c, s, evs[0], p, a, n);
      NextReachable(c, s, evs[0]);
      FailuresAreCounted(c, u, evs[1..], t, p, a, if Ends(s, evs[0], p) then n + 1 else n);
    }
  }

  lemma AtLeastOne(c: Config, s: State, p: Pubkey, a: SocketAddr, n: nat)
    requires At(c, s) && Attempts(s, p, a, n)
    ensures n >= 1
  {
    ReachableAt(c, s);
    DialedAddress(c, s, p, a, n);
  }

  /** After `k` failures in a row of an attempt that began with number `n`, one more failure is the end
      if and only if `n + k` has reached the maximum: then the peer has no attempt and its whole
      queue is reported as unreachable; otherwise it has the next attempt and its queue. */
  lemma {:induction false} GivesUpExactly(c: Config, s: State, evs: seq<Event>, t: State, p: Pubkey, a: SocketAddr, n: nat, ans: Answers)
    requires At(c, s) && Run(c, s, evs, t) && Runs(c, s, evs) && InARow(c, s, evs, p, a)
    requires Attempts(s, p, a, n) && n + Failures(c, s, evs, p) <= Max(1, c.maxConnectionAttempts)
    requires p in t.dialPeers && Enabled(t, ConnectingDone(t.dialPeers[p], ConnectionFailed, ans))
    requires Undisturbed(t, ConnectingDone(t.dialPeers[p], ConnectionFailed, ans), p, a)
    ensures var k, u := Failures(c, s, evs, p), Step(c, t, ConnectingDone(t.dialPeers[p], ConnectionFailed, ans));
            if n + k < c.maxConnectionAttempts then Attempts(u, p, a, n + k + 1) && SameQueue(t, u, p) else GivenUp(t, u, p)
  {
    hide At, Step, Run, Runs, InARow, Inv, PendingAt;
    FailuresAreCounted(c, s, evs, t, p, a, n);
    var k, ev := Failures(c, s, evs, p), ConnectingDone(t.dialPeers[p], ConnectionFailed, ans);
    if n + k < c.maxConnectionAttempts {
      FailureGoesOn(c, t, ev, p, a, n + k);
    } else {
      ReachableAt(c, t);
      DialedAddress(c, t, p, a, n + k);
      LastFailureGivesUp(c, t, t.dialPeers[p], ConnectionFailed, ans, p);
    }
  }
}
