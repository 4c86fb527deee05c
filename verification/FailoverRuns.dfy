/** What runs of the timestamp service guarantee, under which drivers, and where each
    guarantee stops. */
module FailoverRuns {
  import opened Wrappers
  import opened Timestamps
  import A = Allocators
  import opened Failover

  predicate Covers(g: Issued, ts: nat) { g.first <= ts < End(g) }

  ghost predicate Reissued(s: System) {
    exists i, j, ts: nat :: 0 <= i < j < |s.issued| && Covers(s.issued[i], ts) && Covers(s.issued[j], ts)
  }

  /** Whatever was acknowledged to an epoch was already visible to every load of a later
      epoch.  Both histories only grow, so a run that ends fenced was fenced throughout. */
  ghost predicate Fenced(s: System) {
    forall x, y :: x in s.acks && y in s.loads && x.epoch < y.epoch ==> x.value <= y.value
  }

  // ------------------------------------------------------------------
  // Under any driver: the durable register
  // ------------------------------------------------------------------

  lemma {:induction false} RegisterStep(m: Mechanism, s: System, a: Action)
    requires Inv(s) && Enabled(m, s, a)
    ensures s.highWater <= Apply(m, s, a).highWater
    ensures s.acks <= Apply(m, s, a).acks && s.loads <= Apply(m, s, a).loads
  {
  }

  /** The register never moves back, and a linearized load returns at least every value an
      earlier persist returned, with late and repeated commits interleaved freely. */
  lemma {:induction false} LoadSeesEarlierAcks(m: Mechanism, acts: seq<Action>, k: nat)
    requires Exec(m, acts).Some? && k <= |acts|
    ensures Exec(m, acts[..k]).Some?
    ensures Exec(m, acts[..k]).value.highWater <= Exec(m, acts).value.highWater <= PHYSICAL_MS_MAX
    ensures Exec(m, acts[..k]).value.acks <= Exec(m, acts).value.acks
    ensures Exec(m, acts[..k]).value.loads <= Exec(m, acts).value.loads
    ensures forall x :: x in Exec(m, acts[..k]).value.acks ==> x.value <= Exec(m, acts).value.highWater
    decreases |acts|
  {
    RunKeepsInv(m, acts);
    if k == |acts| {
      assert acts[..k] == acts;
    } else {
      var before := acts[..|acts| - 1];
      LoadSeesEarlierAcks(m, before, k);
      assert before[..k] == acts[..k];
      RunKeepsInv(m, before);
      RegisterStep(m, Exec(m, before).value, acts[|acts| - 1]);
    }
  }

  /** Everything issued packs into 64 bits and lies under a durable high-water. */
  lemma {:induction false} IssuedIsDurable(m: Mechanism, acts: seq<Action>, i: nat)
    requires Exec(m, acts).Some? && i < |Exec(m, acts).value.issued|
    ensures End(Exec(m, acts).value.issued[i]) <= Past(Exec(m, acts).value.highWater)
    ensures End(Exec(m, acts).value.issued[i]) <= U64_MAX + 1
  {
    RunKeepsInv(m, acts);
    var s := Exec(m, acts).value;
    PastMonotone(s.issued[i].below, s.highWater);
    PastMonotone(s.highWater, PHYSICAL_MS_MAX);
  }

  /** Nothing is issued below the clock that the fence of its window read, nor at or below
      the high-water that the fence loaded. */
  lemma {:induction false} IssuedFollowsFence(m: Mechanism, acts: seq<Action>, i: nat)
    requires Exec(m, acts).Some? && i < |Exec(m, acts).value.issued|
    ensures var s := Exec(m, acts).value;
            var g := s.issued[i];
            Mark(g.epoch, g.above) in s.loads && Pack(g.clock, 0) <= g.first && Pack(g.above + 1, 0) <= g.first
  {
    RunKeepsInv(m, acts);
  }

  /** A fence skips no more than it must: its window opens at the least millisecond that is
      above the loaded high-water and not behind the clock, its write asks for that much and
      the look-ahead, and what comes back becomes the ceiling. */
  lemma {:induction false} FenceOpensAtLeast(m: Mechanism, acts: seq<Action>, n: nat, now: nat, advance: nat, v: nat)
    requires Exec(m, acts).Some? && Enabled(m, Exec(m, acts).value, LoadFence(n, now))
    ensures var s := Exec(m, acts).value;
            var loaded := Apply(m, s, LoadFence(n, now));
            var f := At(loaded, n).fence;
            && f.Loaded? && f.epoch == At(s, n).fence.epoch && f.priorMax == s.highWater
            && f.floor > s.highWater && f.floor >= now && (v > s.highWater && v >= now ==> f.floor <= v)
            && (Enabled(m, loaded, ProposeFence(n, advance)) ==>
                  var asked := Apply(m, loaded, ProposeFence(n, advance));
                  asked.persists == loaded.persists + [Persist(n, f.epoch, f.floor + advance, None)])
  {
    RunKeepsInv(m, acts);
  }

  lemma {:induction false} SeedOpensWindow(m: Mechanism, s: System, n: nat)
    requires Enabled(m, s, SeedFence(n))
    ensures var f := At(s, n).fence;
            var node := At(Apply(m, s, SeedFence(n)), n);
            && node.fence == Idle
            && (f.floor <= f.actual <= PHYSICAL_MS_MAX ==> node.alloc == A.Leader(f.epoch, f.actual, f.floor, 0) && node.seat == f.priorMax)
            && (!(f.floor <= f.actual <= PHYSICAL_MS_MAX) ==> node.alloc == At(s, n).alloc)
  {
  }

  /** Steps by which a node stops serving. */
  predicate StopsServing(a: Action, n: nat) { a == StepDown(n) || a == Crash(n) || (a.EnterFence? && a.node == n) }

  /** From `s` to `t` node `n` did not serve, and does not now. */
  ghost predicate SilentSince(s: System, t: System, n: nat) {
    && At(t, n).alloc.NotLeader? && |s.issued| <= |t.issued|
    && forall i :: |s.issued| <= i < |t.issued| ==> t.issued[i].node != n
  }

  lemma {:induction false} StaysSilent(m: Mechanism, s: System, t: System, a: Action, n: nat)
    requires SilentSince(s, t, n) && Enabled(m, t, a) && a != SeedFence(n)
    ensures SilentSince(s, Apply(m, t, a), n)
  {
  }

  lemma {:induction false} SilentRun(m: Mechanism, s: System, more: seq<Action>, n: nat)
    requires At(s, n).alloc.NotLeader? && ExecFrom(m, s, more).Some? && SeedFence(n) !in more
    ensures SilentSince(s, ExecFrom(m, s, more).value, n)
  {
    if more != [] {
      var k := |more| - 1;
      SilentRun(m, s, more[..k], n);
      StaysSilent(m, s, ExecFrom(m, s, more[..k]).value, more[k], n);
    }
  }

  /** A node that stepped down, crashed or entered a fence issues nothing more until it
      completes a fence, whatever else happens meanwhile. */
  lemma {:induction false} SilentUntilSeeded(m: Mechanism, s: System, a: Action, more: seq<Action>, n: nat)
    requires Enabled(m, s, a) && StopsServing(a, n) && SeedFence(n) !in more
    requires ExecFrom(m, Apply(m, s, a), more).Some?
    ensures SilentSince(s, ExecFrom(m, Apply(m, s, a), more).value, n)
  {
    SilentRun(m, Apply(m, s, a), more, n);
  }

  // ------------------------------------------------------------------
  // Under any driver: fenced runs
  // ------------------------------------------------------------------

  /** The documented fence guarantee: in a fenced run everything a later epoch ever issues
      lies above everything an earlier epoch ever issues, in whichever order. */
  lemma {:induction false} LaterEpochIsAbove(m: Mechanism, acts: seq<Action>, i: nat, j: nat)
    requires Exec(m, acts).Some? && Fenced(Exec(m, acts).value)
    requires i < |Exec(m, acts).value.issued| && j < |Exec(m, acts).value.issued|
    requires Exec(m, acts).value.issued[i].epoch < Exec(m, acts).value.issued[j].epoch
    ensures End(Exec(m, acts).value.issued[i]) <= Exec(m, acts).value.issued[j].first
  {
    RunKeepsInv(m, acts);
    var s := Exec(m, acts).value;
    PastMonotone(s.issued[i].below, s.issued[j].above);
  }

  /** In a fenced run no timestamp is ever issued twice, by one node or by two. */
  lemma {:induction false} NoTimestampIssuedTwice(m: Mechanism, acts: seq<Action>)
    requires Exec(m, acts).Some? && Fenced(Exec(m, acts).value)
    ensures !Reissued(Exec(m, acts).value)
  {
    RunKeepsInv(m, acts);
    var s := Exec(m, acts).value;
    forall i, j, ts: nat | 0 <= i < j < |s.issued| && Covers(s.issued[i], ts)
      ensures !Covers(s.issued[j], ts)
    {
      if s.issued[i].epoch < s.issued[j].epoch {
        LaterEpochIsAbove(m, acts, i, j);
      } else if s.issued[j].epoch < s.issued[i].epoch {
        LaterEpochIsAbove(m, acts, j, i);
      }
    }
  }

  ghost predicate StrictlyIncreasing(issued: seq<Issued>) {
    forall i, j :: 0 <= i < j < |issued| ==> End(issued[i]) <= issued[j].first
  }

  ghost predicate EpochsNeverRegress(issued: seq<Issued>) {
    forall i, j :: 0 <= i < j < |issued| ==> issued[i].epoch <= issued[j].epoch
  }

  /** In a fenced run issue order is timestamp order exactly when no superseded leader
      serves again after a newer one has. */
  lemma {:induction false} IssueOrderIffEpochOrder(m: Mechanism, acts: seq<Action>)
    requires Exec(m, acts).Some? && Fenced(Exec(m, acts).value)
    ensures StrictlyIncreasing(Exec(m, acts).value.issued) <==> EpochsNeverRegress(Exec(m, acts).value.issued)
  {
    RunKeepsInv(m, acts);
    var issued := Exec(m, acts).value.issued;
    forall i, j | 0 <= i < j < |issued|
      ensures End(issued[i]) <= issued[j].first <==> issued[i].epoch <= issued[j].epoch
    {
      if issued[i].epoch < issued[j].epoch {
        LaterEpochIsAbove(m, acts, i, j);
      } else if issued[j].epoch < issued[i].epoch {
        LaterEpochIsAbove(m, acts, j, i);
      }
    }
  }

  // ------------------------------------------------------------------
  // A driver that checks the epoch where the write commits
  // ------------------------------------------------------------------

  /** A committed value is visible to every load of a later epoch before it is returned. */
  ghost predicate CommitsFenced(s: System) {
    forall t, y :: 0 <= t < |s.persists| && s.persists[t].committed.Some? && y in s.loads && s.persists[t].epoch < y.epoch ==>
      s.persists[t].committed.value <= y.value
  }

  lemma {:induction false} CommitCheckKeepsCommits(s: System, a: Action)
    requires Inv(s) && CommitsFenced(s) && Enabled(CommitCheck, s, a)
    ensures CommitsFenced(Apply(CommitCheck, s, a))
  {
  }

  lemma {:induction false} CommitCheckKeepsAcks(s: System, a: Action)
    requires Inv(s) && Fenced(s) && CommitsFenced(s) && Enabled(CommitCheck, s, a)
    ensures Fenced(Apply(CommitCheck, s, a))
  {
    if a.ReturnFence? { assert NodeInv(s, a.node); }
  }

  /** With such a driver every run is fenced, so the guarantees above hold of all of them. */
  lemma {:induction false} CommitCheckRunsAreFenced(acts: seq<Action>)
    requires Exec(CommitCheck, acts).Some?
    ensures Fenced(Exec(CommitCheck, acts).value) && CommitsFenced(Exec(CommitCheck, acts).value)
  {
    if acts != [] {
      var before := acts[..|acts| - 1];
      CommitCheckRunsAreFenced(before);
      RunKeepsInv(CommitCheck, before);
      CommitCheckKeepsCommits(Exec(CommitCheck, before).value, acts[|acts| - 1]);
      CommitCheckKeepsAcks(Exec(CommitCheck, before).value, acts[|acts| - 1]);
    }
  }

  // ------------------------------------------------------------------
  // Exactly when a state leads to a reissue
  // ------------------------------------------------------------------

  /** Who has issued a timestamp or may still do so without asking the driver again. */
  datatype Claim = Granted(index: nat) | Window(node: nat)

  /** The rest of a node's window, counting acknowledgements it has yet to apply. */
  ghost predicate InWindow(node: Node, ts: nat) {
    && node.alloc.Leader? && A.Cursor(node.alloc) <= ts
    && (|| ts < Past(node.alloc.ceiling)
        || exists x :: x in node.acked && x.epoch == node.alloc.epoch && ts < Past(x.value))
  }

  ghost predicate Holds(s: System, c: Claim, ts: nat) {
    match c
    case Granted(i) => i < |s.issued| && Covers(s.issued[i], ts)
    case Window(n) => InWindow(At(s, n), ts)
  }

  ghost predicate Contested(s: System) {
    exists c, d, ts: nat :: c != d && Holds(s, c, ts) && Holds(s, d, ts)
  }

  /** Steps that take what is already acknowledged and hand it out. */
  predicate Local(a: Action) { a.Serve? || a.CommitExtension? }

  predicate AllLocal(acts: seq<Action>) { forall i :: 0 <= i < |acts| ==> Local(acts[i]) }

  /** Every claim lies above a load and below an acknowledgement of its own epoch. */
  lemma {:induction false} ClaimBounds(s: System, c: Claim, ts: nat) returns (epoch: nat, lo: nat, hi: nat)
    requires Inv(s) && Holds(s, c, ts)
    ensures Mark(epoch, lo) in s.loads && Mark(epoch, hi) in s.acks && Past(lo) <= ts < Past(hi)
    ensures epoch == EpochOf(s, c)
  {
    match c
    case Granted(i) =>
      epoch, lo, hi := s.issued[i].epoch, s.issued[i].above, s.issued[i].below;
    case Window(n) =>
      assert NodeInv(s, n);
      var node := At(s, n);
      epoch, lo, hi := node.alloc.epoch, node.seat, node.alloc.ceiling;
      if ts >= Past(node.alloc.ceiling) {
        var x :| x in node.acked && x.epoch == node.alloc.epoch && ts < Past(x.value);
        hi := x.value;
      }
  }

  function EpochOf(s: System, c: Claim): nat
    requires if c.Granted? then c.index < |s.issued| else At(s, c.node).alloc.Leader?
  {
    if c.Granted? then s.issued[c.index].epoch else At(s, c.node).alloc.epoch
  }

  lemma {:induction false} GrantsApart(s: System, i: nat, j: nat, ts: nat)
    requires Inv(s) && Holds(s, Granted(i), ts) && Holds(s, Granted(j), ts) && s.issued[i].epoch == s.issued[j].epoch
    ensures i == j
  {
  }

  lemma {:induction false} WindowAboveGrants(s: System, i: nat, n: nat, ts: nat)
    requires Inv(s) && Holds(s, Window(n), ts) && i < |s.issued| && s.issued[i].epoch == At(s, n).alloc.epoch
    ensures !Holds(s, Granted(i), ts)
  {
    assert NodeInv(s, n);
  }

  lemma {:induction false} WindowsApart(s: System, n: nat, k: nat, ts: nat)
    requires Inv(s) && Holds(s, Window(n), ts) && Holds(s, Window(k), ts) && At(s, n).alloc.epoch == At(s, k).alloc.epoch
    ensures n == k
  {
    assert NodeInv(s, n) && NodeInv(s, k);
  }

  /** Two claims of one epoch never meet. */
  lemma {:induction false} SameEpochSameClaim(s: System, c: Claim, d: Claim, ts: nat)
    requires Inv(s) && Holds(s, c, ts) && Holds(s, d, ts) && EpochOf(s, c) == EpochOf(s, d)
    ensures c == d
  {
    match (c, d)
    case (Granted(i), Granted(j)) => GrantsApart(s, i, j, ts);
    case (Granted(i), Window(n)) => WindowAboveGrants(s, i, n, ts);
    case (Window(n), Granted(i)) => WindowAboveGrants(s, i, n, ts);
    case (Window(n), Window(k)) => WindowsApart(s, n, k, ts);
  }

  lemma {:induction false} FencedClaims(s: System, c: Claim, d: Claim, ts: nat)
    requires Inv(s) && Fenced(s) && Holds(s, c, ts) && Holds(s, d, ts)
    ensures c == d
  {
    var e, lo, hi := ClaimBounds(s, c, ts);
    var f, lo', hi' := ClaimBounds(s, d, ts);
    if e < f {
      PastMonotone(hi, lo');
    } else if f < e {
      PastMonotone(hi', lo);
    } else {
      SameEpochSameClaim(s, c, d, ts);
    }
  }

  /** Fenced runs never even reach a state from which a timestamp could be repeated. */
  lemma {:induction false} FencedIsUncontested(m: Mechanism, acts: seq<Action>)
    requires Exec(m, acts).Some? && Fenced(Exec(m, acts).value)
    ensures !Contested(Exec(m, acts).value)
  {
    RunKeepsInv(m, acts);
    var s := Exec(m, acts).value;
    forall c, d, ts: nat | Holds(s, c, ts) && Holds(s, d, ts) ensures c == d {
      FencedClaims(s, c, d, ts);
    }
  }

  /** Which claim a claim after a local step came from. */
  function Origin(s: System, a: Action, c: Claim): Claim {
    if a.Serve? && c == Granted(|s.issued|) then Window(a.node) else c
  }

  lemma {:induction false} ClaimHadOrigin(m: Mechanism, s: System, a: Action, c: Claim, ts: nat)
    requires Inv(s) && Local(a) && Enabled(m, s, a) && Holds(Apply(m, s, a), c, ts)
    ensures Holds(s, Origin(s, a, c), ts)
  {
    assert NodeInv(s, a.node);
    if a.Serve? { A.GrantMovesCursor(At(s, a.node).alloc, a.nowMs, a.count); }
  }

  /** What a grant takes leaves the window it came from. */
  lemma {:induction false} GrantLeavesWindow(m: Mechanism, s: System, a: Action, ts: nat)
    requires Inv(s) && a.Serve? && Enabled(m, s, a)
    requires Holds(Apply(m, s, a), Granted(|s.issued|), ts)
    ensures !Holds(Apply(m, s, a), Window(a.node), ts)
  {
    assert NodeInv(s, a.node);
    A.GrantMovesCursor(At(s, a.node).alloc, a.nowMs, a.count);
  }

  lemma {:induction false} LocalStepKeepsUncontested(m: Mechanism, s: System, a: Action)
    requires Inv(s) && Local(a) && Enabled(m, s, a) && Contested(Apply(m, s, a))
    ensures Contested(s)
  {
    var t := Apply(m, s, a);
    var c, d, ts: nat :| c != d && Holds(t, c, ts) && Holds(t, d, ts);
    ClaimHadOrigin(m, s, a, c, ts);
    ClaimHadOrigin(m, s, a, d, ts);
    if a.Serve? && Holds(t, Granted(|s.issued|), ts) { GrantLeavesWindow(m, s, a, ts); }
    assert Origin(s, a, c) != Origin(s, a, d);
  }

  lemma {:induction false} LocalRunKeepsUncontested(m: Mechanism, s: System, acts: seq<Action>)
    requires Inv(s) && AllLocal(acts) && ExecFrom(m, s, acts).Some?
    ensures Inv(ExecFrom(m, s, acts).value)
    ensures Contested(ExecFrom(m, s, acts).value) ==> Contested(s)
  {
    if acts != [] {
      var n := |acts| - 1;
      LocalRunKeepsUncontested(m, s, acts[..n]);
      var before := ExecFrom(m, s, acts[..n]).value;
      StepKeepsInv(m, before, acts[n]);
      if Contested(ExecFrom(m, s, acts).value) { LocalStepKeepsUncontested(m, before, acts[n]); }
    }
  }

  lemma {:induction false} ReissuedIsContested(s: System)
    requires Reissued(s)
    ensures Contested(s)
  {
    var i, j, ts: nat :| 0 <= i < j < |s.issued| && Covers(s.issued[i], ts) && Covers(s.issued[j], ts);
    assert Holds(s, Granted(i), ts) && Holds(s, Granted(j), ts);
  }

  // ------------------------------------------------------------------
  // Making a claim good
  // ------------------------------------------------------------------

  lemma {:induction false} Extend(m: Mechanism, s: System, acts: seq<Action>, t: System, a: Action) returns (acts': seq<Action>, t': System)
    requires ExecFrom(m, s, acts) == Some(t) && Enabled(m, t, a)
    ensures acts' == acts + [a] && t' == Apply(m, t, a)
    ensures ExecFrom(m, s, acts') == Some(t')
  {
    acts', t' := acts + [a], Apply(m, t, a);
    assert acts'[..|acts|] == acts;
  }

  /** `t` has one more grant than `s`; it is of `ts`, and only node `n` has moved. */
  ghost predicate MadeGood(s: System, t: System, n: nat, ts: nat) {
    && |t.issued| == |s.issued| + 1 && t.issued[..|s.issued|] == s.issued && Covers(t.issued[|s.issued|], ts)
    && forall k :: k != n ==> At(t, k) == At(s, k)
  }

  lemma {:induction false} ServeOne(m: Mechanism, s0: System, acts: seq<Action>, s: System, n: nat, ts: nat) returns (acts': seq<Action>, t: System)
    requires ExecFrom(m, s0, acts) == Some(s) && AllLocal(acts) && Inv(s)
    requires At(s, n).alloc.Leader? && A.Cursor(At(s, n).alloc) <= ts < Past(At(s, n).alloc.ceiling)
    ensures ExecFrom(m, s0, acts') == Some(t) && AllLocal(acts') && Inv(t) && MadeGood(s, t, n, ts)
  {
    assert NodeInv(s, n);
    var now, count := A.WindowIsServable(At(s, n).alloc, ts);
    acts', t := Extend(m, s0, acts, s, Serve(n, now, count));
    StepKeepsInv(m, s, Serve(n, now, count));
  }

  lemma {:induction false} MakeGood(m: Mechanism, s0: System, acts: seq<Action>, s: System, n: nat, ts: nat) returns (acts': seq<Action>, t: System)
    requires ExecFrom(m, s0, acts) == Some(s) && AllLocal(acts) && Inv(s) && InWindow(At(s, n), ts)
    ensures ExecFrom(m, s0, acts') == Some(t) && AllLocal(acts') && Inv(t) && MadeGood(s, t, n, ts)
  {
    if ts < Past(At(s, n).alloc.ceiling) {
      acts', t := ServeOne(m, s0, acts, s, n, ts);
    } else {
      var x :| x in At(s, n).acked && x.epoch == At(s, n).alloc.epoch && ts < Past(x.value);
      var mid;
      acts', mid := Extend(m, s0, acts, s, CommitExtension(n, x));
      StepKeepsInv(m, s, CommitExtension(n, x));
      acts', t := ServeOne(m, s0, acts', mid, n, ts);
    }
  }

  lemma {:induction false} ContestedReissues(m: Mechanism, s: System) returns (acts: seq<Action>)
    requires Inv(s) && Contested(s)
    ensures AllLocal(acts) && ExecFrom(m, s, acts).Some? && Reissued(ExecFrom(m, s, acts).value)
  {
    var c, d, ts: nat :| c != d && Holds(s, c, ts) && Holds(s, d, ts);
    var t := s;
    acts := [];
    var i, j := if c.Granted? then c.index else |s.issued|, 0;
    if c.Window? { acts, t := MakeGood(m, s, acts, s, c.node, ts); }
    assert Covers(t.issued[i], ts);
    if d.Granted? {
      j := d.index;
    } else {
      assert At(t, d.node) == At(s, d.node);
      j := |t.issued|;
      var t1 := t;
      acts, t := MakeGood(m, s, acts, t, d.node, ts);
      assert t.issued[i] == t1.issued[i];
    }
    assert i != j && Covers(t.issued[i], ts) && Covers(t.issued[j], ts);
    if j < i { assert Covers(t.issued[j], ts) && Covers(t.issued[i], ts); }
  }

  /** The exact condition, under any driver: a reachable state can be driven to issue some
      timestamp twice by nodes that merely apply what was acknowledged and serve, if and
      only if two claims of it, issued or still open, share a timestamp now. */
  lemma {:induction false} ReissueIffContested(m: Mechanism, acts: seq<Action>)
    requires Exec(m, acts).Some?
    ensures var s := Exec(m, acts).value;
            (exists more :: AllLocal(more) && ExecFrom(m, s, more).Some? && Reissued(ExecFrom(m, s, more).value))
            <==> Contested(s)
  {
    RunKeepsInv(m, acts);
    var s := Exec(m, acts).value;
    if more :| AllLocal(more) && ExecFrom(m, s, more).Some? && Reissued(ExecFrom(m, s, more).value) {
      LocalRunKeepsUncontested(m, s, more);
      ReissuedIsContested(ExecFrom(m, s, more).value);
    }
    if Contested(s) {
      var more := ContestedReissues(m, s);
    }
  }

  /** How a broken fence gets there: an acknowledgement of `x.epoch` reaches node `n`, which
      still serves that epoch, after node `k` of a later epoch was seated on a lower load.
      As long as `k`'s window is open and has not moved past the acknowledged value, a
      reissue is one step of each node away. */
  lemma {:induction false} UnfencedAckContests(m: Mechanism, acts: seq<Action>, n: nat, k: nat, x: Mark)
    requires Exec(m, acts).Some?
    requires var s := Exec(m, acts).value;
             && x in At(s, n).acked && At(s, n).alloc.Leader? && At(s, n).alloc.epoch == x.epoch
             && At(s, k).alloc.Leader? && x.epoch < At(s, k).alloc.epoch
             && At(s, n).alloc.ceiling <= At(s, k).seat < x.value
             && A.Cursor(At(s, k).alloc) < Past(At(s, k).alloc.ceiling)
             && A.Cursor(At(s, k).alloc) < Past(x.value)
    ensures !Fenced(Exec(m, acts).value) && Contested(Exec(m, acts).value)
  {
    RunKeepsInv(m, acts);
    var s := Exec(m, acts).value;
    assert NodeInv(s, n) && NodeInv(s, k);
    A.CursorWithinWindow(At(s, n).alloc);
    PastMonotone(At(s, n).alloc.ceiling, At(s, k).seat);
    var ts := A.Cursor(At(s, k).alloc);
    assert Holds(s, Window(n), ts) && Holds(s, Window(k), ts);
    assert Mark(At(s, k).alloc.epoch, At(s, k).seat) in s.loads && x in s.acks;
  }

  // ------------------------------------------------------------------
  // Runs that show where the guarantees stop
  // ------------------------------------------------------------------

  /** Node `n`, elected at `epoch`, has loaded the high-water with the clock at zero. */
  lemma {:induction false} LoadIn(m: Mechanism, acts: seq<Action>, s: System, n: nat, epoch: nat) returns (acts': seq<Action>, s': System)
    requires Exec(m, acts) == Some(s) && epoch > s.term && s.highWater + 1 <= PHYSICAL_MS_MAX
    ensures Exec(m, acts') == Some(s')
    ensures s'.highWater == s.highWater && s'.term == epoch && s'.owner == s.owner[epoch := n]
    ensures s'.issued == s.issued && s'.persists == s.persists
    ensures s'.nodes == s.nodes[n := At(s, n).(alloc := A.NotLeader, fence := Loaded(epoch, s.highWater, s.highWater + 1), clock := 0)]
  {
    acts', s' := Extend(m, INITIAL, acts, s, Elect(n, epoch));
    acts', s' := Extend(m, INITIAL, acts', s', EnterFence(n, epoch));
    acts', s' := Extend(m, INITIAL, acts', s', LoadFence(n, 0));
  }

  /** Its fence write is proposed and commits. */
  lemma {:induction false} PersistIn(m: Mechanism, acts: seq<Action>, s: System, n: nat, advance: nat) returns (acts': seq<Action>, s': System)
    requires Exec(m, acts) == Some(s) && Leads(s, n) && n in s.nodes
    requires s.nodes[n].fence == Loaded(s.term, s.highWater, s.highWater + 1) && s.highWater + 1 + advance <= PHYSICAL_MS_MAX
    ensures Exec(m, acts') == Some(s')
    ensures var hw := s.highWater + 1 + advance;
            && s'.highWater == hw && s'.term == s.term && s'.owner == s.owner && s'.issued == s.issued
            && s'.persists == s.persists + [Persist(n, s.term, hw, Some(hw))]
            && s'.nodes == s.nodes[n := s.nodes[n].(fence := Persisting(s.term, s.highWater, s.highWater + 1, |s.persists|))]
  {
    acts', s' := Extend(m, INITIAL, acts, s, ProposeFence(n, advance));
    acts', s' := Extend(m, INITIAL, acts', s', Commit(|s.persists|));
  }

  /** The write returns and seeds its window. */
  lemma {:induction false} SeedIn(m: Mechanism, acts: seq<Action>, s: System, n: nat, prior: nat) returns (acts': seq<Action>, s': System)
    requires Exec(m, acts) == Some(s) && n in s.nodes && s.persists != []
    requires var t := |s.persists| - 1;
             && s.nodes[n].fence == Persisting(s.term, prior, prior + 1, t)
             && s.persists[t].atLeast == s.highWater && s.persists[t].committed == Some(s.highWater)
             && prior + 1 <= s.highWater <= PHYSICAL_MS_MAX
    ensures Exec(m, acts') == Some(s')
    ensures s'.highWater == s.highWater && s'.term == s.term && s'.owner == s.owner && s'.issued == s.issued && s'.persists == s.persists
    ensures s'.nodes == s.nodes[n := s.nodes[n].(alloc := A.Leader(s.term, s.highWater, prior + 1, 0), fence := Idle, seat := prior)]
  {
    acts', s' := Extend(m, INITIAL, acts, s, ReturnFence(n, s.highWater));
    acts', s' := Extend(m, INITIAL, acts', s', SeedFence(n));
  }

  /** Node `n` is elected at `epoch` and completes its fence with the clock at zero. */
  lemma {:induction false} FenceIn(m: Mechanism, acts: seq<Action>, s: System, n: nat, epoch: nat, advance: nat)
    returns (acts': seq<Action>, s': System)
    requires Exec(m, acts) == Some(s) && epoch > s.term && s.highWater + 1 + advance <= PHYSICAL_MS_MAX
    ensures Exec(m, acts') == Some(s')
    ensures s'.highWater == s.highWater + 1 + advance && s'.term == epoch && s'.owner == s.owner[epoch := n]
    ensures s'.issued == s.issued && s'.persists == s.persists + [Persist(n, epoch, s'.highWater, Some(s'.highWater))]
    ensures s'.nodes == s.nodes[n := At(s, n).(alloc := A.Leader(epoch, s'.highWater, s.highWater + 1, 0),
                                                fence := Idle, seat := s.highWater, clock := 0)]
  {
    acts', s' := LoadIn(m, acts, s, n, epoch);
    acts', s' := PersistIn(m, acts', s', n, advance);
    acts', s' := SeedIn(m, acts', s', n, s.highWater);
  }

  /** A superseded leader that has not yet noticed keeps serving its old window, so issue
      order can regress with every driver, even though no timestamp repeats. */
  lemma {:induction false} StaleLeaderRegresses(m: Mechanism) returns (acts: seq<Action>)
    ensures Exec(m, acts).Some? && !StrictlyIncreasing(Exec(m, acts).value.issued)
  {
    var s: System;
    acts, s := FenceIn(m, [], INITIAL, 0, 1, 10);
    acts, s := FenceIn(m, acts, s, 1, 2, 10);
    acts, s := Extend(m, INITIAL, acts, s, Serve(1, 0, 1));
    acts, s := Extend(m, INITIAL, acts, s, Serve(0, 0, 1));
    assert s.issued[0].first == Pack(12, 0) && End(s.issued[1]) == Pack(1, 1);
  }

  /** Node 0 leads epoch 1 and has prepared an extension. */
  lemma {:induction false} Preparing(m: Mechanism) returns (acts: seq<Action>, s: System)
    ensures Exec(m, acts) == Some(s) && s.term == 1 && s.highWater == 11 && s.issued == [] && Leads(s, 0)
    ensures 0 in s.nodes && s.nodes[0].alloc == A.Leader(1, 11, 1, 0) && Mark(1, 13) in s.nodes[0].prepared && |s.persists| == 1
  {
    acts, s := FenceIn(m, [], INITIAL, 0, 1, 10);
    acts, s := Extend(m, INITIAL, acts, s, PrepareExtension(0, 0, 1));
  }

  /** It proposes the extension if asked to. */
  lemma {:induction false} MidExtension(m: Mechanism, propose: bool) returns (acts: seq<Action>, s: System)
    ensures Exec(m, acts) == Some(s) && s.term == 1 && s.highWater == 11 && s.issued == []
    ensures 0 in s.nodes && s.nodes[0].alloc == A.Leader(1, 11, 1, 0) && s.persists != []
    ensures !propose ==> Mark(1, 13) in s.nodes[0].prepared
    ensures propose ==> 1 in s.nodes[0].inFlight && |s.persists| == 2 && s.persists[1] == Persist(0, 1, 13, None)
  {
    acts, s := Preparing(m);
    if propose { acts, s := Extend(m, INITIAL, acts, s, ProposeExtension(0, Mark(1, 13))); }
  }

  /** Then node 1 takes over and issues at 12 ms. */
  lemma {:induction false} TakenOverMidExtension(m: Mechanism, propose: bool) returns (acts: seq<Action>, s: System)
    ensures Exec(m, acts) == Some(s) && s.term == 2 && s.highWater == 22 && |s.persists| > 1
    ensures 0 in s.nodes && s.nodes[0].alloc == A.Leader(1, 11, 1, 0)
    ensures !propose ==> Mark(1, 13) in s.nodes[0].prepared
    ensures propose ==> 1 in s.nodes[0].inFlight && s.persists[1].atLeast == 13 && s.persists[1].epoch == 1
    ensures |s.issued| == 1 && s.issued[0].node == 1 && s.issued[0].first == Pack(12, 0) && s.issued[0].count == 1
  {
    acts, s := MidExtension(m, propose);
    acts, s := FenceIn(m, acts, s, 1, 2, 10);
    acts, s := Extend(m, INITIAL, acts, s, Serve(1, 0, 1));
  }

  lemma {:induction false} BothIssue(s: System)
    requires |s.issued| == 2 && s.issued[0].first == s.issued[1].first && s.issued[0].count == s.issued[1].count == 1
    ensures Reissued(s)
  {
    assert Covers(s.issued[0], s.issued[0].first) && Covers(s.issued[1], s.issued[0].first);
  }

  /** Checking the epoch before proposing is not enough: the persist can return under the
      successor, with the successor's high-water, to a node that still serves. */
  lemma {:induction false} PreCheckReissues() returns (acts: seq<Action>)
    ensures Exec(PreCheck, acts).Some? && Reissued(Exec(PreCheck, acts).value)
  {
    var s: System;
    acts, s := TakenOverMidExtension(PreCheck, true);
    acts, s := Extend(PreCheck, INITIAL, acts, s, ReturnExtension(0, 1, 22));
    acts, s := Extend(PreCheck, INITIAL, acts, s, CommitExtension(0, Mark(1, 22)));
    acts, s := Extend(PreCheck, INITIAL, acts, s, Serve(0, 12, 1));
    BothIssue(s);
  }

  /** Node 0, elected again, has its first epoch's write committed and returned. */
  lemma {:induction false} LateWriteReturns(acts: seq<Action>, s: System) returns (acts': seq<Action>, s': System)
    requires Exec(LeaderForwarding, acts) == Some(s) && s.term == 2 && s.highWater == 22
    requires 0 in s.nodes && Mark(1, 13) in s.nodes[0].prepared
    ensures Exec(LeaderForwarding, acts') == Some(s') && s'.issued == s.issued
    ensures 0 in s'.nodes && s'.nodes[0].alloc == s.nodes[0].alloc && Mark(1, 22) in s'.nodes[0].acked
  {
    var m, t := LeaderForwarding, |s.persists|;
    acts', s' := Extend(m, INITIAL, acts, s, Elect(0, 3));
    acts', s' := Extend(m, INITIAL, acts', s', ProposeExtension(0, Mark(1, 13)));
    acts', s' := Extend(m, INITIAL, acts', s', Commit(t));
    acts', s' := Extend(m, INITIAL, acts', s', ReturnExtension(0, t, 22));
  }

  /** Nor is requiring that the proposing node leads: one that loses leadership and wins it
      back can have an extension prepared under its first epoch committed in its second. */
  lemma {:induction false} ForwardingReissues() returns (acts: seq<Action>)
    ensures Exec(LeaderForwarding, acts).Some? && Reissued(Exec(LeaderForwarding, acts).value)
  {
    var m := LeaderForwarding;
    var s: System;
    acts, s := TakenOverMidExtension(m, false);
    acts, s := LateWriteReturns(acts, s);
    acts, s := Extend(m, INITIAL, acts, s, CommitExtension(0, Mark(1, 22)));
    acts, s := Extend(m, INITIAL, acts, s, Serve(0, 12, 1));
    BothIssue(s);
  }
}
