/** The timestamp service as a distributed state machine.

    Any number of nodes are elected, observe their elections late or twice, run the
    failover fence, serve from their windows, extend them, step down and crash, in
    any interleaving.  The consensus driver keeps one durable high-water.  A persist
    is proposed, commits and returns in separate steps, and what was proposed may also
    commit late, out of order and more than once without its proposer hearing of it. */
module Failover {
  import opened Wrappers
  import opened Basics
  import opened Timestamps
  import A = Allocators
  import HighWater

  // ------------------------------------------------------------------
  // State
  // ------------------------------------------------------------------

  /** How far a node's fence attempt at `epoch` has come. */
  datatype Fence =
    | Idle
    | Entered(epoch: nat)
    | Loaded(epoch: nat, priorMax: nat, floor: nat)
    | Persisting(epoch: nat, priorMax: nat, floor: nat, ticket: nat)
    | Persisted(epoch: nat, priorMax: nat, floor: nat, actual: nat)

  /** A value asked for, seen or acknowledged under a leadership epoch. */
  datatype Mark = Mark(epoch: nat, value: nat)

  /** Window extensions are `prepared` by the allocator, then `inFlight` at the driver,
      then `acked` with the value it returned until the allocator applies them.  `seat`
      records the load that the serving window was seeded from, and `clock` the node's
      clock at its latest load. */
  datatype Node = Node(
    alloc: A.State, fence: Fence, prepared: set<Mark>, inFlight: set<nat>, acked: set<Mark>, seat: nat, clock: nat)

  const FRESH_NODE := Node(A.NotLeader, Idle, {}, {}, {}, 0, 0)

  /** A call to the driver, and the high-water right after its write committed in a way
      the driver may report. */
  datatype Persist = Persist(node: nat, epoch: nat, atLeast: nat, committed: Option<nat>)

  /** One grant in issue order; `above`, `below` and `clock` record the load and the
      acknowledged ceiling of the window it came from, and the clock its fence read. */
  datatype Issued = Issued(node: nat, epoch: nat, first: nat, count: nat, above: nat, below: nat, clock: nat)

  /** `owner` maps each elected epoch to its node and `term` is the newest of them.
      `loads` and `acks` are the history of linearized reads and returned persists. */
  datatype System = System(
    highWater: nat, term: nat, owner: map<nat, nat>, nodes: map<nat, Node>,
    persists: seq<Persist>, loads: set<Mark>, acks: set<Mark>, issued: seq<Issued>)

  const INITIAL := System(0, 0, map[], map[], [], {}, {}, [])

  function At(s: System, n: nat): Node {
    if n in s.nodes then s.nodes[n] else FRESH_NODE
  }

  function End(g: Issued): nat { g.first + g.count }

  /** The first packed value past physical millisecond `ms`. */
  function Past(ms: nat): nat { (ms + 1) * LOGICALS_PER_MS }

  function SaturatingAdd(a: nat, b: nat): nat { if a + b > U64_MAX then U64_MAX else a + b }

  // ------------------------------------------------------------------
  // Driver and steps
  // ------------------------------------------------------------------

  /** Where a driver refuses a stale leader's write.

      `PreCheck` compares the caller's epoch with the current one before proposing, and
      returns the high-water it sees once that covers the request, as the paxos driver
      does.  `LeaderForwarding` ignores the epoch: the write commits while its node leads,
      and the value of that moment is returned, as the openraft driver does.
      `CommitCheck` compares the epoch where the write commits. */
  datatype Mechanism = PreCheck | LeaderForwarding | CommitCheck

  datatype Action =
    | Elect(node: nat, epoch: nat)
    | EnterFence(node: nat, epoch: nat)
    | LoadFence(node: nat, nowMs: nat)
    | ProposeFence(node: nat, advanceMs: nat)
    | ReturnFence(node: nat, value: nat)
    | RetryFence(node: nat)
    | SeedFence(node: nat)
    | AbandonFence(node: nat)
    | StepDown(node: nat)
    | Crash(node: nat)
    | Serve(node: nat, nowMs: nat, count: nat)
    | PrepareExtension(node: nat, nowMs: nat, aheadMs: nat)
    | ProposeExtension(node: nat, mark: Mark)
    | ReturnExtension(node: nat, ticket: nat, value: nat)
    | CommitExtension(node: nat, mark: Mark)
    | Commit(ticket: nat)
    | LateCommit(ticket: nat)

  predicate Leads(s: System, n: nat) { s.term in s.owner && s.owner[s.term] == n }

  predicate MayPropose(m: Mechanism, s: System, n: nat, epoch: nat) {
    m.PreCheck? ==> Leads(s, n) && epoch == s.term
  }

  predicate MayCommit(m: Mechanism, s: System, p: Persist) {
    match m
    case PreCheck => true
    case LeaderForwarding => Leads(s, p.node)
    case CommitCheck => Leads(s, p.node) && p.epoch == s.term
  }

  predicate MayReturn(m: Mechanism, s: System, p: Persist, value: nat) {
    if m.PreCheck? then p.atLeast <= value <= s.highWater else p.committed == Some(value)
  }

  function FenceRequest(f: Fence, advanceMs: nat): nat
    requires f.Loaded?
  {
    SaturatingAdd(f.floor, advanceMs)
  }

  predicate Enabled(m: Mechanism, s: System, a: Action) {
    match a
    case Elect(n, e) => e > s.term
    case EnterFence(n, e) => e in s.owner && s.owner[e] == n
    case LoadFence(n, now) => At(s, n).fence.Entered? && now <= U64_MAX
    case ProposeFence(n, advance) =>
      var f := At(s, n).fence;
      && f.Loaded? && HighWater.RejectOutOfRange(FenceRequest(f, advance)).Success?
      && MayPropose(m, s, n, f.epoch)
    case ReturnFence(n, value) =>
      var f := At(s, n).fence;
      f.Persisting? && f.ticket < |s.persists| && MayReturn(m, s, s.persists[f.ticket], value)
    case RetryFence(n) => !At(s, n).fence.Idle?
    case SeedFence(n) => At(s, n).fence.Persisted?
    case AbandonFence(n) => true
    case StepDown(n) => true
    case Crash(n) => true
    case Serve(n, now, count) => A.Grant(At(s, n).alloc, now, count).0.Success?
    case PrepareExtension(n, now, ahead) => A.PrepareExtension(At(s, n).alloc, now, ahead).Success?
    case ProposeExtension(n, x) =>
      x in At(s, n).prepared && HighWater.RejectOutOfRange(x.value).Success? && MayPropose(m, s, n, x.epoch)
    case ReturnExtension(n, t, value) =>
      t in At(s, n).inFlight && t < |s.persists| && MayReturn(m, s, s.persists[t], value)
    case CommitExtension(n, x) => x in At(s, n).acked
    case Commit(t) => t < |s.persists| && s.persists[t].committed.None? && MayCommit(m, s, s.persists[t])
    case LateCommit(t) => t < |s.persists|
  }

  function Put(s: System, n: nat, node: Node): System { s.(nodes := s.nodes[n := node]) }

  /** The driver applies an advance by the state machine's rule. */
  function Advance(s: System, atLeast: nat): System {
    s.(highWater := HighWater.Merge(atLeast, s.highWater))
  }

  function Propose(s: System, p: Persist): System { s.(persists := s.persists + [p]) }

  function Acknowledge(s: System, x: Mark): System { s.(acks := s.acks + {x}) }

  function AfterLoad(s: System, n: nat, now: nat): System
    requires At(s, n).fence.Entered?
  {
    var e := At(s, n).fence.epoch;
    var floor := Max(SaturatingAdd(s.highWater, 1), now);
    Put(s, n, At(s, n).(fence := Loaded(e, s.highWater, floor), clock := now)).(loads := s.loads + {Mark(e, s.highWater)})
  }

  function AfterSeed(s: System, n: nat): System
    requires At(s, n).fence.Persisted?
  {
    var f := At(s, n).fence;
    var seeded := A.Seed(f.floor, f.actual, f.epoch);
    if seeded.Success?
    then Put(s, n, At(s, n).(alloc := seeded.value, fence := Idle, seat := f.priorMax))
    else Put(s, n, At(s, n).(fence := Idle))
  }

  function AfterServe(s: System, n: nat, now: nat, count: nat): System
    requires A.Grant(At(s, n).alloc, now, count).0.Success?
  {
    var (r, after) := A.Grant(At(s, n).alloc, now, count);
    Put(s, n, At(s, n).(alloc := after))
    .(issued := s.issued + [Issued(n, r.value.epoch, A.FirstTs(r.value), count,
                                   At(s, n).seat, At(s, n).alloc.ceiling, At(s, n).clock)])
  }

  function AfterCommitExtension(s: System, n: nat, x: Mark): System {
    Put(s, n, At(s, n).(alloc := A.CommitExtension(At(s, n).alloc, x.value, x.epoch).1, acked := At(s, n).acked - {x}))
  }

  function AfterCommit(s: System, t: nat): System
    requires t < |s.persists|
  {
    var s1 := Advance(s, s.persists[t].atLeast);
    s1.(persists := s.persists[t := s.persists[t].(committed := Some(s1.highWater))])
  }

  function Apply(m: Mechanism, s: System, a: Action): System
    requires Enabled(m, s, a)
  {
    match a
    case Elect(n, e) => s.(term := e, owner := s.owner[e := n])
    case EnterFence(n, e) => Put(s, n, At(s, n).(alloc := A.NotLeader, fence := Entered(e)))
    case LoadFence(n, now) => AfterLoad(s, n, now)
    case ProposeFence(n, advance) =>
      var f := At(s, n).fence;
      Put(Propose(s, Persist(n, f.epoch, FenceRequest(f, advance), None)), n,
          At(s, n).(fence := Persisting(f.epoch, f.priorMax, f.floor, |s.persists|)))
    case ReturnFence(n, value) =>
      var f := At(s, n).fence;
      Put(Acknowledge(s, Mark(f.epoch, value)), n, At(s, n).(fence := Persisted(f.epoch, f.priorMax, f.floor, value)))
    case RetryFence(n) => Put(s, n, At(s, n).(fence := Entered(At(s, n).fence.epoch)))
    case SeedFence(n) => AfterSeed(s, n)
    case AbandonFence(n) => Put(s, n, At(s, n).(fence := Idle))
    case StepDown(n) => Put(s, n, At(s, n).(alloc := A.NotLeader))
    case Crash(n) => Put(s, n, FRESH_NODE)
    case Serve(n, now, count) => AfterServe(s, n, now, count)
    case PrepareExtension(n, now, ahead) =>
      var x := Mark(At(s, n).alloc.epoch, A.PrepareExtension(At(s, n).alloc, now, ahead).value);
      Put(s, n, At(s, n).(prepared := At(s, n).prepared + {x}))
    case ProposeExtension(n, x) =>
      Put(Propose(s, Persist(n, x.epoch, x.value, None)), n,
          At(s, n).(prepared := At(s, n).prepared - {x}, inFlight := At(s, n).inFlight + {|s.persists|}))
    case ReturnExtension(n, t, value) =>
      var x := Mark(s.persists[t].epoch, value);
      Put(Acknowledge(s, x), n, At(s, n).(inFlight := At(s, n).inFlight - {t}, acked := At(s, n).acked + {x}))
    case CommitExtension(n, x) => AfterCommitExtension(s, n, x)
    case Commit(t) => AfterCommit(s, t)
    case LateCommit(t) => Advance(s, s.persists[t].atLeast)
  }

  /** Where a run of actions leads from `s`, if each was enabled. */
  function ExecFrom(m: Mechanism, s: System, acts: seq<Action>): Option<System> {
    if acts == [] then Some(s)
    else
      var before := ExecFrom(m, s, acts[..|acts| - 1]);
      var a := acts[|acts| - 1];
      if before.Some? && Enabled(m, before.value, a) then Some(Apply(m, before.value, a)) else None
  }

  function Exec(m: Mechanism, acts: seq<Action>): Option<System> { ExecFrom(m, INITIAL, acts) }

  // ------------------------------------------------------------------
  // What every driver keeps
  // ------------------------------------------------------------------

  ghost predicate DriverInv(s: System) {
    && s.highWater <= PHYSICAL_MS_MAX
    && (forall e :: e in s.owner ==> e <= s.term)
    && (forall t :: 0 <= t < |s.persists| ==>
          && s.persists[t].atLeast <= PHYSICAL_MS_MAX && s.persists[t].epoch in s.owner
          && (s.persists[t].committed.Some? ==> s.persists[t].committed.value <= s.highWater))
    && (forall x :: x in s.acks ==> x.value <= s.highWater && x.epoch in s.owner)
    && (forall x :: x in s.loads ==> x.value <= s.highWater && x.epoch in s.owner)
  }

  ghost predicate ServingInv(s: System, n: nat, node: Node)
    requires node.alloc.Leader?
  {
    var st := node.alloc;
    && node.fence.Idle?
    && st.epoch in s.owner && s.owner[st.epoch] == n
    && Mark(st.epoch, st.ceiling) in s.acks
    && Mark(st.epoch, node.seat) in s.loads
    && Past(node.seat) <= A.Cursor(st) && Pack(node.clock, 0) <= A.Cursor(st)
    && (forall i :: 0 <= i < |s.issued| && s.issued[i].epoch == st.epoch ==> End(s.issued[i]) <= A.Cursor(st))
  }

  predicate HasLoad(f: Fence) { f.Loaded? || f.Persisting? || f.Persisted? }

  ghost predicate FenceInv(s: System, n: nat, f: Fence) {
    && (!f.Idle? ==> f.epoch in s.owner && s.owner[f.epoch] == n)
    && (HasLoad(f) ==>
          && Mark(f.epoch, f.priorMax) in s.loads
          && f.priorMax < f.floor
          && (forall i :: 0 <= i < |s.issued| && s.issued[i].epoch == f.epoch ==> End(s.issued[i]) <= Past(f.priorMax)))
    && (f.Persisting? ==> f.ticket < |s.persists| && s.persists[f.ticket].epoch == f.epoch)
    && (f.Persisted? ==> Mark(f.epoch, f.actual) in s.acks)
  }

  ghost predicate NodeInv(s: System, n: nat) {
    var node := At(s, n);
    && A.WellFormed(node.alloc)
    && (node.alloc.Leader? ==> ServingInv(s, n, node))
    && FenceInv(s, n, node.fence) && (HasLoad(node.fence) ==> node.clock <= node.fence.floor)
    && (forall x :: x in node.prepared ==> x.epoch in s.owner)
    && (forall x :: x in node.acked ==> x in s.acks)
  }

  ghost predicate IssuedInv(s: System) {
    && (forall i :: 0 <= i < |s.issued| ==>
          var g := s.issued[i];
          && g.count >= 1
          && g.epoch in s.owner && s.owner[g.epoch] == g.node
          && Mark(g.epoch, g.above) in s.loads && Past(g.above) <= g.first
          && Mark(g.epoch, g.below) in s.acks && End(g) <= Past(g.below)
          && Pack(g.clock, 0) <= g.first)
    && (forall i, j :: 0 <= i < j < |s.issued| && s.issued[i].epoch == s.issued[j].epoch ==>
          End(s.issued[i]) <= s.issued[j].first)
  }

  ghost predicate Inv(s: System) {
    DriverInv(s) && (forall n :: NodeInv(s, n)) && IssuedInv(s)
  }

  lemma {:induction false} PastMonotone(a: nat, b: nat)
    requires a <= b
    ensures Past(a) <= Past(b)
  {
  }

  /** What a node's facts rest on has only grown from `s` to `t`. */
  ghost predicate Grown(s: System, t: System, k: nat) {
    && (forall e :: e in s.owner ==> e in t.owner && t.owner[e] == s.owner[e])
    && s.loads <= t.loads && s.acks <= t.acks
    && |s.persists| <= |t.persists| && (forall i :: 0 <= i < |s.persists| ==> t.persists[i].epoch == s.persists[i].epoch)
    && |s.issued| <= |t.issued| && (forall i :: 0 <= i < |s.issued| ==> t.issued[i] == s.issued[i])
    && (forall i :: |s.issued| <= i < |t.issued| ==> t.issued[i].epoch in s.owner && s.owner[t.issued[i].epoch] == k)
  }

  /** A step of node `k` leaves the other nodes' facts intact. */
  lemma {:induction false} OtherNodesKept(s: System, t: System, k: nat)
    requires Inv(s) && Grown(s, t, k)
    requires forall n :: n != k ==> At(t, n) == At(s, n)
    ensures forall n :: n != k ==> NodeInv(t, n)
  {
    forall n | n != k
      ensures NodeInv(t, n)
    {
      assert NodeInv(s, n);
    }
  }

  /** A step of the driver alone leaves every node's facts intact. */
  lemma {:induction false} AllNodesKept(s: System, t: System)
    requires Inv(s) && Grown(s, t, 0) && t.issued == s.issued && t.nodes == s.nodes
    ensures forall n :: NodeInv(t, n)
  {
    forall n ensures NodeInv(t, n) { assert NodeInv(s, n); }
  }

  lemma {:induction false} ElectKeepsInv(m: Mechanism, s: System, a: Action)
    requires Inv(s) && Enabled(m, s, a) && a.Elect?
    ensures Inv(Apply(m, s, a))
  {
    AllNodesKept(s, Apply(m, s, a));
  }

  lemma {:induction false} LoadKeepsInv(s: System, n: nat, now: nat)
    requires Inv(s) && At(s, n).fence.Entered?
    ensures Inv(AfterLoad(s, n, now))
  {
    assert NodeInv(s, n);
    forall i | 0 <= i < |s.issued| && s.issued[i].epoch == At(s, n).fence.epoch
      ensures End(s.issued[i]) <= Past(s.highWater)
    {
      PastMonotone(s.issued[i].below, s.highWater);
    }
    OtherNodesKept(s, AfterLoad(s, n, now), n);
  }

  lemma {:induction false} ProposeKeepsInv(m: Mechanism, s: System, a: Action)
    requires Inv(s) && Enabled(m, s, a) && (a.ProposeFence? || a.ProposeExtension?)
    ensures Inv(Apply(m, s, a))
  {
    assert NodeInv(s, a.node);
    OtherNodesKept(s, Apply(m, s, a), a.node);
  }

  lemma {:induction false} ReturnFenceKeepsInv(m: Mechanism, s: System, n: nat, value: nat)
    requires Inv(s) && Enabled(m, s, ReturnFence(n, value))
    ensures Inv(Apply(m, s, ReturnFence(n, value)))
  {
    assert NodeInv(s, n);
    OtherNodesKept(s, Apply(m, s, ReturnFence(n, value)), n);
  }

  lemma {:induction false} ReturnExtensionKeepsInv(m: Mechanism, s: System, n: nat, t: nat, value: nat)
    requires Inv(s) && Enabled(m, s, ReturnExtension(n, t, value))
    ensures Inv(Apply(m, s, ReturnExtension(n, t, value)))
  {
    assert NodeInv(s, n);
    OtherNodesKept(s, Apply(m, s, ReturnExtension(n, t, value)), n);
  }

  lemma {:induction false} SeedKeepsInv(s: System, n: nat)
    requires Inv(s) && At(s, n).fence.Persisted?
    ensures Inv(AfterSeed(s, n))
  {
    assert NodeInv(s, n);
    OtherNodesKept(s, AfterSeed(s, n), n);
    var f := At(s, n).fence;
    PastMonotone(f.priorMax, f.floor - 1);
    assert At(s, n).clock * LOGICALS_PER_MS <= f.floor * LOGICALS_PER_MS;
  }

  lemma {:induction false} ServeKeepsInv(s: System, n: nat, now: nat, count: nat)
    requires Inv(s) && A.Grant(At(s, n).alloc, now, count).0.Success?
    ensures Inv(AfterServe(s, n, now, count))
  {
    assert NodeInv(s, n);
    A.GrantMovesCursor(At(s, n).alloc, now, count);
    OtherNodesKept(s, AfterServe(s, n, now, count), n);
  }

  lemma {:induction false} CommitExtensionKeepsInv(s: System, n: nat, x: Mark)
    requires Inv(s) && x in At(s, n).acked
    ensures Inv(AfterCommitExtension(s, n, x))
  {
    assert NodeInv(s, n);
    OtherNodesKept(s, AfterCommitExtension(s, n, x), n);
  }

  lemma {:induction false} FenceMoveKeepsInv(m: Mechanism, s: System, a: Action)
    requires Inv(s) && Enabled(m, s, a) && (a.EnterFence? || a.RetryFence? || a.AbandonFence?)
    ensures Inv(Apply(m, s, a))
  {
    assert NodeInv(s, a.node);
    OtherNodesKept(s, Apply(m, s, a), a.node);
  }

  lemma {:induction false} LossKeepsInv(m: Mechanism, s: System, a: Action)
    requires Inv(s) && Enabled(m, s, a) && (a.StepDown? || a.Crash?)
    ensures Inv(Apply(m, s, a))
  {
    assert NodeInv(s, a.node);
    OtherNodesKept(s, Apply(m, s, a), a.node);
  }

  lemma {:induction false} PrepareKeepsInv(m: Mechanism, s: System, a: Action)
    requires Inv(s) && Enabled(m, s, a) && a.PrepareExtension?
    ensures Inv(Apply(m, s, a))
  {
    assert NodeInv(s, a.node);
    OtherNodesKept(s, Apply(m, s, a), a.node);
  }

  lemma {:induction false} DriverKeepsInv(m: Mechanism, s: System, a: Action)
    requires Inv(s) && Enabled(m, s, a) && (a.Commit? || a.LateCommit?)
    ensures Inv(Apply(m, s, a))
  {
    AllNodesKept(s, Apply(m, s, a));
  }

  lemma {:induction false} StepKeepsInv(m: Mechanism, s: System, a: Action)
    requires Inv(s) && Enabled(m, s, a)
    ensures Inv(Apply(m, s, a))
  {
    match a
    case Elect(_, _) => ElectKeepsInv(m, s, a);
    case LoadFence(n, now) => LoadKeepsInv(s, n, now);
    case ProposeFence(_, _) => ProposeKeepsInv(m, s, a);
    case ProposeExtension(_, _) => ProposeKeepsInv(m, s, a);
    case ReturnFence(n, v) => ReturnFenceKeepsInv(m, s, n, v);
    case ReturnExtension(n, t, v) => ReturnExtensionKeepsInv(m, s, n, t, v);
    case SeedFence(n) => SeedKeepsInv(s, n);
    case Serve(n, now, count) => ServeKeepsInv(s, n, now, count);
    case CommitExtension(n, x) => CommitExtensionKeepsInv(s, n, x);
    case EnterFence(_, _) => FenceMoveKeepsInv(m, s, a);
    case RetryFence(_) => FenceMoveKeepsInv(m, s, a);
    case AbandonFence(_) => FenceMoveKeepsInv(m, s, a);
    case StepDown(_) => LossKeepsInv(m, s, a);
    case Crash(_) => LossKeepsInv(m, s, a);
    case PrepareExtension(_, _, _) => PrepareKeepsInv(m, s, a);
    case Commit(_) => DriverKeepsInv(m, s, a);
    case LateCommit(_) => DriverKeepsInv(m, s, a);
  }

  /** Whatever the driver's mechanism, every reachable state has its windows between a
      load and an acknowledgement of their own epoch. */
  lemma {:induction false} RunKeepsInv(m: Mechanism, acts: seq<Action>)
    requires Exec(m, acts).Some?
    ensures Inv(Exec(m, acts).value)
  {
    if acts != [] {
      RunKeepsInv(m, acts[..|acts| - 1]);
      StepKeepsInv(m, Exec(m, acts[..|acts| - 1]).value, acts[|acts| - 1]);
    }
  }
}
