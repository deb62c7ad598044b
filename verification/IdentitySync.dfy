/** Identity synchronisation: a coordinator asks every member to change its identity, and all meet
    at a barrier before any of them goes on.

    Each update has its own barrier for all members and the coordinator. A member takes the update
    from its inbox, stops its operation, installs the identity and waits; the coordinator publishes
    the identity after the barrier. Members that are slow to leave one barrier may find the next
    update in their inbox already. */
module IdentitySync {
  import opened Collections
  import opened Types

  datatype Command = Command(identity: Pubkey, round: nat)

  /** A member that is paused waits at the barrier of a round, with the new identity installed. */
  datatype Member = Member(identity: Pubkey, inbox: seq<Command>, paused: Option<nat>)

  datatype Coordinator = Idle | Sending(next: nat) | Waiting

  /** `round` numbers the updates; `target` is the identity of the last one and `arrived` tells
      who has reached which barrier. Party `|members|` is the coordinator. */
  datatype Group = Group(
    members: seq<Member>,
    coordinator: Coordinator,
    round: nat,
    target: Pubkey,
    arrived: map<nat, set<nat>>,
    identity: Pubkey,
    published: Pubkey)               // what the identity watcher shows

  datatype Event =
    | Begin(identity: Pubkey)        // an update is requested
    | Send                           // the coordinator hands the command to the next member
    | Arrive                         // the coordinator reaches the barrier
    | Publish                        // the coordinator leaves the barrier and publishes
    | Take(m: nat)                   // a running member takes a command, installs it and waits
    | Resume(m: nat)                 // a member leaves the barrier

  /** A barrier lets everybody go once all members and the coordinator have reached it. */
  ghost predicate Open(g: Group, round: nat) {
    round in g.arrived && g.arrived[round] == UpTo(|g.members|)
  }

  ghost predicate Running(g: Group, m: nat) {
    m < |g.members| && g.members[m].paused.None?
  }

  ghost predicate Enabled(g: Group, ev: Event) {
    match ev
    case Begin(_) => g.coordinator.Idle?
    case Send => g.coordinator.Sending? && g.coordinator.next < |g.members|
    case Arrive => g.coordinator.Sending? && g.coordinator.next >= |g.members|
    case Publish => g.coordinator.Waiting? && Open(g, g.round)
    case Take(m) => Running(g, m) && g.members[m].inbox != []
    case Resume(m) => m < |g.members| && g.members[m].paused.Some? && Open(g, g.members[m].paused.value)
  }

  ghost function ArrivedAt(arrived: map<nat, set<nat>>, round: nat): set<nat> {
    if round in arrived then arrived[round] else {}
  }

  ghost function Step(g: Group, ev: Event): Group
    requires Enabled(g, ev)
  {
    match ev
    case Begin(identity) => g.(coordinator := Sending(0), round := g.round + 1, target := identity, arrived := g.arrived[g.round + 1 := {}])
    case Send =>
      var m := g.members[g.coordinator.next];
      g.(members := g.members[g.coordinator.next := m.(inbox := m.inbox + [Command(g.target, g.round)])],
         coordinator := Sending(g.coordinator.next + 1))
    case Arrive =>
      g.(coordinator := Waiting, arrived := g.arrived[g.round := ArrivedAt(g.arrived, g.round) + {|g.members|}])
    case Publish => g.(coordinator := Idle, identity := g.target, published := g.target)
    case Take(m) =>
      var command := g.members[m].inbox[0];
      g.(members := g.members[m := Member(command.identity, g.members[m].inbox[1..], Some(command.round))],
         arrived := g.arrived[command.round := ArrivedAt(g.arrived, command.round) + {m}])
    case Resume(m) => g.(members := g.members[m := g.members[m].(paused := None)])
  }

  ghost function Initial(n: nat, identity: Pubkey): Group {
    Group(seq(n, _ => Member(identity, [], None)), Idle, 0, identity, map[0 := UpTo(n)], identity, identity)
  }

  ghost predicate Run(g: Group, evs: seq<Event>, g': Group)
    decreases |evs|
  {
    if evs == [] then g' == g else Enabled(g, evs[0]) && Run(Step(g, evs[0]), evs[1..], g')
  }

  ghost predicate Reachable(g: Group) {
    exists n, identity, evs :: Run(Initial(n, identity), evs, g)
  }

  // ---------------------------------------------------------------- the invariant

  /** How many members the coordinator has sent the command of the current round. */
  ghost function Sent(g: Group): nat {
    match g.coordinator
    case Sending(next) => next
    case _ => |g.members|
  }

  /** A member that has reached the current barrier has the new identity and nothing to read; it
      runs only once the barrier is open. */
  ghost predicate HasArrived(g: Group, m: nat) {
    && m < |g.members| && m < Sent(g)
    && g.members[m].identity == g.target
    && g.members[m].inbox == []
    && (g.members[m].paused == Some(g.round) || (g.members[m].paused.None? && Open(g, g.round)))
  }

  /** A member that has not still has the identity published last, and the command waits for it
      if it was sent; it may not have left the barrier of an earlier round yet. */
  ghost predicate HasNotArrived(g: Group, m: nat) {
    && m < |g.members|
    && g.members[m].identity == g.published
    && g.members[m].inbox == (if m < Sent(g) then [Command(g.target, g.round)] else [])
    && (g.members[m].paused.Some? ==> g.members[m].paused.value < g.round && Open(g, g.members[m].paused.value))
  }

  ghost predicate MemberOk(g: Group, m: nat) {
    if m in ArrivedAt(g.arrived, g.round) then HasArrived(g, m) else HasNotArrived(g, m)
  }

  ghost predicate CoordinatorOk(g: Group) {
    && g.round in g.arrived
    && g.arrived[g.round] <= UpTo(|g.members|)
    && (|g.members| in g.arrived[g.round] <==> !g.coordinator.Sending?)
    && (g.coordinator.Sending? ==> g.coordinator.next <= |g.members|)
    && (g.coordinator.Idle? ==> Open(g, g.round) && g.published == g.target)
    && g.identity == g.published
    && (forall r :: r in g.arrived ==> r <= g.round)
  }

  ghost predicate Inv(g: Group) {
    CoordinatorOk(g) && forall m {:trigger MemberOk(g, m)} :: 0 <= m < |g.members| ==> MemberOk(g, m)
  }

  lemma InitialInv(n: nat, identity: Pubkey)
    ensures Inv(Initial(n, identity))
  {
    var g := Initial(n, identity);
    forall m | 0 <= m < n ensures MemberOk(g, m) {
      assert m in UpTo(n);
    }
  }

  lemma BeginInv(g: Group, identity: Pubkey)
    requires Inv(g) && g.coordinator.Idle?
    ensures Inv(Step(g, Begin(identity)))
  {
    var t := Step(g, Begin(identity));
    forall m | 0 <= m < |g.members| ensures MemberOk(t, m) {
      assert MemberOk(g, m);
      assert m in UpTo(|g.members|);
    }
  }

  lemma SendInv(g: Group)
    requires Inv(g) && Enabled(g, Send)
    ensures Inv(Step(g, Send))
  {
    var t := Step(g, Send);
    assert |g.members| !in ArrivedAt(g.arrived, g.round);
    assert |g.members| in UpTo(|g.members|);
    forall m | 0 <= m < |g.members| ensures MemberOk(t, m) {
      assert MemberOk(g, m);
    }
  }

  lemma ArriveInv(g: Group)
    requires Inv(g) && Enabled(g, Arrive)
    ensures Inv(Step(g, Arrive))
  {
    var t := Step(g, Arrive);
    assert |g.members| in UpTo(|g.members|);
    forall m | 0 <= m < |g.members| ensures MemberOk(t, m) {
      assert MemberOk(g, m);
    }
  }

  lemma PublishInv(g: Group)
    requires Inv(g) && Enabled(g, Publish)
    ensures Inv(Step(g, Publish))
  {
    var t := Step(g, Publish);
    forall m | 0 <= m < |g.members| ensures MemberOk(t, m) {
      assert MemberOk(g, m);
      assert m in UpTo(|g.members|);
    }
  }

  lemma TakeInv(g: Group, m: nat)
    requires Inv(g) && Enabled(g, Take(m))
    ensures Inv(Step(g, Take(m)))
  {
    var t := Step(g, Take(m));
    assert MemberOk(g, m);
    assert m !in ArrivedAt(g.arrived, g.round);
    assert g.members[m].inbox == [Command(g.target, g.round)];
    assert m in UpTo(|g.members|);
    forall k | 0 <= k < |g.members| ensures MemberOk(t, k) {
      assert MemberOk(g, k);
    }
  }

  lemma ResumeInv(g: Group, m: nat)
    requires Inv(g) && Enabled(g, Resume(m))
    ensures Inv(Step(g, Resume(m)))
  {
    var t := Step(g, Resume(m));
    forall k | 0 <= k < |g.members| ensures MemberOk(t, k) {
      assert MemberOk(g, k);
    }
  }

  lemma StepInv(g: Group, ev: Event)
    requires Inv(g) && Enabled(g, ev)
    ensures Inv(Step(g, ev))
  {
    hide Inv;
    match ev
    case Begin(identity) => BeginInv(g, identity);
    case Send => SendInv(g);
    case Arrive => ArriveInv(g);
    case Publish => PublishInv(g);
    case Take(m) => TakeInv(g, m);
    case Resume(m) => ResumeInv(g, m);
  }

  lemma {:induction false} RunInv(g: Group, evs: seq<Event>, g': Group)
    requires Inv(g) && Run(g, evs, g')
    ensures Inv(g')
    decreases |evs|
  {
    hide Inv;
    if evs != [] {
      StepInv(g, evs[0]);
      RunInv(Step(g, evs[0]), evs[1..], g');
    }
  }

  lemma ReachableInv(g: Group)
    requires Reachable(g)
    ensures Inv(g)
  {
    hide Inv;
    var n, identity, evs :| Run(Initial(n, identity), evs, g);
    InitialInv(n, identity);
    RunInv(Initial(n, identity), evs, g);
  }

  // ---------------------------------------------------------------- safety

  /** Two members that are running never have different identities, whatever updates follow each
      other and however slowly members leave their barriers. */
  lemma RunningMembersAgree(g: Group, m: nat, k: nat)
    requires Reachable(g) && Running(g, m) && Running(g, k)
    ensures g.members[m].identity == g.members[k].identity
  {
    ReachableInv(g);
    assert MemberOk(g, m) && MemberOk(g, k);
    assert m in UpTo(|g.members|) && k in UpTo(|g.members|);
  }

  /** A member leaves the barrier of a round only after every member has installed the identity of
      that round: at the current round they all have it now. */
  lemma ResumesAfterAllInstalled(g: Group, m: nat, k: nat)
    requires Reachable(g) && Enabled(g, Resume(m)) && k < |g.members|
    ensures k in ArrivedAt(g.arrived, g.members[m].paused.value)
    ensures g.members[m].paused.value == g.round ==> g.members[k].identity == g.target && g.members[m].identity == g.target
  {
    ReachableInv(g);
    assert k in UpTo(|g.members|) && m in UpTo(|g.members|);
    assert MemberOk(g, m) && MemberOk(g, k);
  }

  /** The coordinator publishes an identity only when every member has it. */
  lemma PublishesWhatAllHave(g: Group, k: nat)
    requires Reachable(g) && Enabled(g, Publish) && k < |g.members|
    ensures g.members[k].identity == Step(g, Publish).published
  {
    ReachableInv(g);
    assert k in UpTo(|g.members|);
    assert MemberOk(g, k);
  }

  /** Between updates everybody has the published identity, and so does the coordinator. */
  lemma IdleMeansAgreement(g: Group, k: nat)
    requires Reachable(g) && g.coordinator.Idle? && k < |g.members|
    ensures g.members[k].identity == g.published == g.identity && g.members[k].inbox == []
  {
    ReachableInv(g);
    assert k in UpTo(|g.members|);
    assert MemberOk(g, k);
  }

  // ---------------------------------------------------------------- progress

  /** The steps a member still has to take in the round. */
  ghost function Todo(m: Member): nat {
    2 * |m.inbox| + if m.paused.Some? then 1 else 0
  }

  ghost function TodoAll(members: seq<Member>): nat {
    if members == [] then 0 else TodoAll(members[..|members| - 1]) + Todo(members[|members| - 1])
  }

  lemma {:induction false} TodoUpdate(members: seq<Member>, i: nat, m: Member)
    requires i < |members|
    ensures TodoAll(members[i := m]) + Todo(members[i]) == TodoAll(members) + Todo(m)
    decreases |members|
  {
    var n := |members| - 1;
    if i < n {
      assert members[i := m][..n] == members[..n][i := m];
      TodoUpdate(members[..n], i, m);
    } else {
      assert members[i := m][..n] == members[..n];
    }
  }

  /** Everything that is still to be done until the current update is complete. */
  ghost function Work(g: Group): nat {
    TodoAll(g.members) +
      match g.coordinator
      case Idle => 0
      case Sending(next) => 3 * Saturating(|g.members| - next) + 2
      case Waiting => 1
  }

  /** Every step but the start of a new update brings the current one closer to its end. */
  lemma StepsMakeProgress(g: Group, ev: Event)
    requires Enabled(g, ev) && !ev.Begin?
    ensures Work(Step(g, ev)) < Work(g)
  {
    match ev
    case Send =>
      var m := g.members[g.coordinator.next];
      TodoUpdate(g.members, g.coordinator.next, m.(inbox := m.inbox + [Command(g.target, g.round)]));
    case Take(m) =>
      var command := g.members[m].inbox[0];
      TodoUpdate(g.members, m, Member(command.identity, g.members[m].inbox[1..], Some(command.round)));
    case Resume(m) => TodoUpdate(g.members, m, g.members[m].(paused := None));
    case _ =>
  }

  /** The protocol never blocks: while an update is under way, some step can be taken. Together
      with the bound above, every update ends. */
  lemma NeverStuck(g: Group)
    requires Reachable(g) && !g.coordinator.Idle?
    ensures exists ev: Event :: !ev.Begin? && Enabled(g, ev)
  {
    ReachableInv(g);
    var n := |g.members|;
    if g.coordinator.Sending? {
      assert if g.coordinator.next < n then Enabled(g, Send) else Enabled(g, Arrive);
    } else if m :| 0 <= m < n && m !in g.arrived[g.round] {
      assert MemberOk(g, m);
      if g.members[m].paused.Some? {
        assert Enabled(g, Resume(m));
      } else {
        assert Enabled(g, Take(m));
      }
    } else {
      assert g.arrived[g.round] == UpTo(n);
      assert Enabled(g, Publish);
    }
  }
}
