/** Dense sequences end to end: any number of client calls, each retrying as the client
    does, against per-key durable counters that may commit a request long after its
    sender stopped waiting. */
module Dense {
  import opened Wrappers
  import opened ClientTypes
  import opened Timestamps
  import opened SeqRetry

  // ------------------------------------------------------------------
  // State
  // ------------------------------------------------------------------

  /** A request on the wire: undecided, durably applied, or refused for good. */
  datatype RpcStatus = InFlight | Committed(starts: seq<nat>) | Rejected

  datatype RpcState = RpcState(call: nat, status: RpcStatus)

  /** Where a call stands; the last three are what the caller was told. */
  datatype Phase =
    | Ready
    | Waiting(rpc: nat)
    | ReturnedBlocks(rpc: nat, blocks: seq<SeqBlock>)
    | ReturnedUncertain(rpc: nat)
    | ReturnedError

  datatype CallState = CallState(entries: seq<Entry>, phase: Phase)

  /** One atomic durable advance. */
  datatype Commit = Commit(rpc: nat, call: nat, entries: seq<Entry>, starts: seq<nat>)

  datatype System = System(counters: map<Key, nat>, rpcs: seq<RpcState>, calls: seq<CallState>, log: seq<Commit>)

  const INITIAL := System(map[], [], [], [])

  /** A key's counter; absent keys start at zero. */
  function Counter(counters: map<Key, nat>, k: Key): nat { if k in counters then counters[k] else 0 }

  /** Position of the entry for `k`, or the length when there is none. */
  function Find(entries: seq<Entry>, k: Key): (i: nat)
    ensures i <= |entries|
    ensures i < |entries| ==> entries[i].key == k
    ensures forall j :: 0 <= j < i ==> entries[j].key != k
  {
    if entries == [] || entries[0].key == k then 0 else 1 + Find(entries[1..], k)
  }

  function CountFor(entries: seq<Entry>, k: Key): nat {
    var i := Find(entries, k);
    if i < |entries| then entries[i].count else 0
  }

  function KeysOf(entries: seq<Entry>): set<Key> { set e | e in entries :: e.key }

  /** The atomic multi-key fetch-add: each key advances by its count... */
  function AdvanceAll(counters: map<Key, nat>, entries: seq<Entry>): map<Key, nat> {
    map k | k in counters.Keys + KeysOf(entries) :: Counter(counters, k) + CountFor(entries, k)
  }

  /** ...and the pre-advance values are the block starts, in request order. */
  function StartsOf(counters: map<Key, nat>, entries: seq<Entry>): seq<nat> {
    seq(|entries|, i requires 0 <= i < |entries| => Counter(counters, entries[i].key))
  }

  predicate Overflows(counters: map<Key, nat>, entries: seq<Entry>) {
    exists i :: 0 <= i < |entries| && Counter(counters, entries[i].key) + entries[i].count > U64_MAX
  }

  // ------------------------------------------------------------------
  // Steps
  // ------------------------------------------------------------------

  datatype Action =
    | Begin(entries: seq<Entry>)
    | Send(call: nat)
    | GiveUp(call: nat)
    | CommitRpc(rpc: nat)
    | RejectRpc(rpc: nat)
    | Deliver(call: nat, reply: SeqReply)
    | TimeOut(call: nat)

  /** A reply a conforming server may give to request `r`: a success that matches the
      request reports the committed starts, and a pre-commit-certain status is only
      given to a request that was refused for good.  Anything else goes. */
  predicate Honest(status: RpcStatus, entries: seq<Entry>, reply: SeqReply) {
    && (Matches(entries, reply) ==>
          && status.Committed? && |status.starts| == |entries|
          && forall i :: 0 <= i < |entries| ==> reply.grants[i].start == status.starts[i])
    && (reply.Refused? && PreCommitCertain(reply.status.code) ==> status.Rejected?)
  }

  ghost predicate Enabled(s: System, a: Action) {
    match a
    case Begin(entries) => WellFormedBatch(entries)
    case Send(c) => c < |s.calls| && s.calls[c].phase.Ready?
    case GiveUp(c) => c < |s.calls| && s.calls[c].phase.Ready?
    case CommitRpc(r) =>
      && r < |s.rpcs| && s.rpcs[r].status.InFlight? && s.rpcs[r].call < |s.calls|
      && !Overflows(s.counters, s.calls[s.rpcs[r].call].entries)
    case RejectRpc(r) => r < |s.rpcs| && s.rpcs[r].status.InFlight?
    case Deliver(c, reply) =>
      && c < |s.calls| && s.calls[c].phase.Waiting? && s.calls[c].phase.rpc < |s.rpcs|
      && Honest(s.rpcs[s.calls[c].phase.rpc].status, s.calls[c].entries, reply)
    case TimeOut(c) => c < |s.calls| && s.calls[c].phase.Waiting?
  }

  function SetPhase(s: System, c: nat, p: Phase): System
    requires c < |s.calls|
  {
    s.(calls := s.calls[c := s.calls[c].(phase := p)])
  }

  function SetStatus(s: System, r: nat, st: RpcStatus): System
    requires r < |s.rpcs|
  {
    s.(rpcs := s.rpcs[r := s.rpcs[r].(status := st)])
  }

  /** The client's reaction to a reply, through its own classification. */
  function OnReply(entries: seq<Entry>, rpc: nat, reply: SeqReply): Phase {
    match Classify(entries, reply)
    case Ok(blocks) => ReturnedBlocks(rpc, blocks)
    case Uncertain => ReturnedUncertain(rpc)
    case _ => Ready
  }

  ghost function Apply(s: System, a: Action): System
    requires Enabled(s, a)
  {
    match a
    case Begin(entries) => s.(calls := s.calls + [CallState(entries, Ready)])
    case Send(c) => SetPhase(s.(rpcs := s.rpcs + [RpcState(c, InFlight)]), c, Waiting(|s.rpcs|))
    case GiveUp(c) => SetPhase(s, c, ReturnedError)
    case CommitRpc(r) =>
      var c := s.rpcs[r].call;
      var entries := s.calls[c].entries;
      var starts := StartsOf(s.counters, entries);
      SetStatus(s, r, Committed(starts))
      .(counters := AdvanceAll(s.counters, entries), log := s.log + [Commit(r, c, entries, starts)])
    case RejectRpc(r) => SetStatus(s, r, Rejected)
    case Deliver(c, reply) => SetPhase(s, c, OnReply(s.calls[c].entries, s.calls[c].phase.rpc, reply))
    case TimeOut(c) => SetPhase(s, c, ReturnedUncertain(s.calls[c].phase.rpc))
  }

  ghost function Exec(acts: seq<Action>): Option<System> {
    if acts == [] then Some(INITIAL)
    else
      var before := Exec(acts[..|acts| - 1]);
      var a := acts[|acts| - 1];
      if before.Some? && Enabled(before.value, a) then Some(Apply(before.value, a)) else None
  }

  // ------------------------------------------------------------------
  // Tiling of one key
  // ------------------------------------------------------------------

  datatype Block = Block(start: nat, count: nat)

  /** The blocks committed for key `k`, in commit order. */
  function Blocks(log: seq<Commit>, k: Key): seq<Block> {
    if log == [] then []
    else
      var c := log[|log| - 1];
      var i := Find(c.entries, k);
      if i < |c.entries| && i < |c.starts|
      then Blocks(log[..|log| - 1], k) + [Block(c.starts[i], c.entries[i].count)]
      else Blocks(log[..|log| - 1], k)
  }

  /** Back to back from zero up to `end`. */
  predicate Tiles(bs: seq<Block>, end: nat) {
    if bs == [] then end == 0
    else
      var b := bs[|bs| - 1];
      b.count >= 1 && b.start + b.count == end && Tiles(bs[..|bs| - 1], b.start)
  }

  predicate Covers(b: Block, v: nat) { b.start <= v < b.start + b.count }

  ghost predicate Covered(bs: seq<Block>, v: nat) { exists i :: 0 <= i < |bs| && Covers(bs[i], v) }

  ghost predicate CoveredOnce(bs: seq<Block>, v: nat) {
    forall i, j :: 0 <= i < |bs| && 0 <= j < |bs| && Covers(bs[i], v) && Covers(bs[j], v) ==> i == j
  }

  /** Tiling, read pointwise: exactly the ordinals below `end` are covered, each once. */
  lemma {:induction false} TilesPointwise(bs: seq<Block>, end: nat, v: nat)
    requires Tiles(bs, end)
    ensures v < end <==> Covered(bs, v)
    ensures CoveredOnce(bs, v)
  {
    if bs != [] {
      var n := |bs| - 1;
      var rest, b := bs[..n], bs[n];
      TilesPointwise(rest, b.start, v);
      assert forall i :: 0 <= i < n ==> rest[i] == bs[i];
      if v < b.start {
        var i :| 0 <= i < n && Covers(rest[i], v);
        assert Covers(bs[i], v);
      } else if v < end {
        assert Covers(bs[n], v);
      }
      forall i | 0 <= i < n && Covers(bs[i], v)
        ensures v < b.start
      {
        assert Covers(rest[i], v);
      }
    }
  }

  // ------------------------------------------------------------------
  // The invariant
  // ------------------------------------------------------------------

  ghost predicate TilingInv(s: System) {
    forall k :: Tiles(Blocks(s.log, k), Counter(s.counters, k))
  }

  /** The log and the request table tell the same story. */
  ghost predicate LogInv(s: System) {
    && (forall j :: 0 <= j < |s.log| ==>
          var m := s.log[j];
          && m.rpc < |s.rpcs| && s.rpcs[m.rpc] == RpcState(m.call, Committed(m.starts))
          && m.call < |s.calls| && m.entries == s.calls[m.call].entries && |m.starts| == |m.entries|)
    && (forall i, j :: 0 <= i < j < |s.log| ==> s.log[i].rpc != s.log[j].rpc)
    && (forall r :: 0 <= r < |s.rpcs| && s.rpcs[r].status.Committed? ==>
          exists j :: 0 <= j < |s.log| && s.log[j].rpc == r)
  }

  /** The one request of a call whose fate is still open, or was reported. */
  function Current(p: Phase): Option<nat> {
    match p
    case Waiting(r) => Some(r)
    case ReturnedBlocks(r, _) => Some(r)
    case ReturnedUncertain(r) => Some(r)
    case _ => None
  }

  ghost predicate CallInv(s: System, c: nat)
    requires c < |s.calls|
  {
    var call := s.calls[c];
    && WellFormedBatch(call.entries)
    && (Current(call.phase).Some? ==> Current(call.phase).value < |s.rpcs| && s.rpcs[Current(call.phase).value].call == c)
    && (forall r :: 0 <= r < |s.rpcs| && s.rpcs[r].call == c && Current(call.phase) != Some(r) ==> s.rpcs[r].status.Rejected?)
    && (call.phase.ReturnedBlocks? ==>
          var st := s.rpcs[call.phase.rpc].status;
          && st.Committed? && |call.phase.blocks| == |call.entries| == |st.starts|
          && forall i :: 0 <= i < |call.entries| ==>
               call.phase.blocks[i].start == st.starts[i] && call.phase.blocks[i].count == call.entries[i].count)
  }

  ghost predicate Inv(s: System) {
    && TilingInv(s)
    && LogInv(s)
    && (forall r :: 0 <= r < |s.rpcs| ==> s.rpcs[r].call < |s.calls|)
    && (forall c :: 0 <= c < |s.calls| ==> CallInv(s, c))
  }

  lemma {:induction false} FindUnique(entries: seq<Entry>, i: nat)
    requires DistinctKeys(entries) && i < |entries|
    ensures Find(entries, entries[i].key) == i
  {
  }

  lemma {:induction false} FindsKey(entries: seq<Entry>, k: Key)
    ensures k in KeysOf(entries) <==> Find(entries, k) < |entries|
  {
    if Find(entries, k) < |entries| { assert entries[Find(entries, k)] in entries; }
  }

  lemma {:induction false} BlocksAppend(log: seq<Commit>, m: Commit, k: Key)
    requires |m.starts| == |m.entries|
    ensures var i := Find(m.entries, k);
            Blocks(log + [m], k) == if i < |m.entries| then Blocks(log, k) + [Block(m.starts[i], m.entries[i].count)] else Blocks(log, k)
  {
    assert (log + [m])[..|log|] == log;
  }

  lemma {:induction false} TilesAppend(bs: seq<Block>, b: Block)
    requires Tiles(bs, b.start) && b.count >= 1
    ensures Tiles(bs + [b], b.start + b.count)
  {
    assert (bs + [b])[..|bs|] == bs;
  }

  /** The commit's block for `k`, if it has one, starts where the key's tiles ended. */
  lemma {:induction false} CommitTilesKey(log: seq<Commit>, counters: map<Key, nat>, m: Commit, k: Key)
    requires Tiles(Blocks(log, k), Counter(counters, k)) && WellFormedBatch(m.entries) && m.starts == StartsOf(counters, m.entries)
    ensures Tiles(Blocks(log + [m], k), Counter(AdvanceAll(counters, m.entries), k))
  {
    FindsKey(m.entries, k);
    BlocksAppend(log, m, k);
    var i := Find(m.entries, k);
    if i < |m.entries| { TilesAppend(Blocks(log, k), Block(Counter(counters, k), m.entries[i].count)); }
  }

  lemma {:induction false} CommitTiles(s: System, r: nat)
    requires Inv(s) && Enabled(s, CommitRpc(r))
    ensures TilingInv(Apply(s, CommitRpc(r)))
  {
    var c := s.rpcs[r].call;
    var m := Commit(r, c, s.calls[c].entries, StartsOf(s.counters, s.calls[c].entries));
    assert CallInv(s, c);
    forall k
      ensures Tiles(Blocks(s.log + [m], k), Counter(AdvanceAll(s.counters, m.entries), k))
    {
      CommitTilesKey(s.log, s.counters, m, k);
    }
  }

  /** Requests committed before stay in the log, and the new one is its last entry. */
  lemma {:induction false} CommitIsLogged(s: System, r: nat, q: nat)
    requires LogInv(s) && Enabled(s, CommitRpc(r))
    requires q < |s.rpcs| && Apply(s, CommitRpc(r)).rpcs[q].status.Committed?
    ensures exists j :: 0 <= j < |s.log| + 1 && Apply(s, CommitRpc(r)).log[j].rpc == q
  {
    var t := Apply(s, CommitRpc(r));
    if q == r {
      assert t.log[|s.log|].rpc == q;
    } else {
      var j :| 0 <= j < |s.log| && s.log[j].rpc == q;
      assert t.log[j].rpc == q;
    }
  }

  lemma {:induction false} CommitKeepsLog(s: System, r: nat)
    requires Inv(s) && Enabled(s, CommitRpc(r))
    ensures LogInv(Apply(s, CommitRpc(r)))
  {
    var t := Apply(s, CommitRpc(r));
    assert forall j :: 0 <= j < |s.log| ==> t.log[j] == s.log[j];
    forall q | 0 <= q < |t.rpcs| && t.rpcs[q].status.Committed?
      ensures exists j :: 0 <= j < |t.log| && t.log[j].rpc == q
    {
      CommitIsLogged(s, r, q);
    }
  }

  lemma {:induction false} CommitKeepsCalls(s: System, r: nat)
    requires Inv(s) && Enabled(s, CommitRpc(r))
    ensures forall c :: 0 <= c < |s.calls| ==> CallInv(Apply(s, CommitRpc(r)), c)
  {
    var t := Apply(s, CommitRpc(r));
    forall c | 0 <= c < |s.calls|
      ensures CallInv(t, c)
    {
      assert CallInv(s, c);
    }
  }

  lemma {:induction false} RejectKeepsInv(s: System, r: nat)
    requires Inv(s) && Enabled(s, RejectRpc(r))
    ensures Inv(Apply(s, RejectRpc(r)))
  {
    var t := Apply(s, RejectRpc(r));
    forall c | 0 <= c < |s.calls| ensures CallInv(t, c) { assert CallInv(s, c); }
  }

  lemma {:induction false} BeginKeepsInv(s: System, entries: seq<Entry>)
    requires Inv(s) && Enabled(s, Begin(entries))
    ensures Inv(Apply(s, Begin(entries)))
  {
    var t := Apply(s, Begin(entries));
    forall c | 0 <= c < |t.calls| ensures CallInv(t, c) { if c < |s.calls| { assert CallInv(s, c); } }
  }

  lemma {:induction false} SendKeepsInv(s: System, n: nat)
    requires Inv(s) && Enabled(s, Send(n))
    ensures Inv(Apply(s, Send(n)))
  {
    var t := Apply(s, Send(n));
    forall c | 0 <= c < |t.calls| ensures CallInv(t, c) { assert CallInv(s, c); }
  }

  /** A phase change that keeps the call's story straight keeps everything else. */
  lemma {:induction false} PhaseKeepsInv(s: System, n: nat, p: Phase)
    requires Inv(s) && n < |s.calls| && CallInv(SetPhase(s, n, p), n)
    ensures Inv(SetPhase(s, n, p))
  {
    var t := SetPhase(s, n, p);
    forall c | 0 <= c < |t.calls| ensures CallInv(t, c) { assert CallInv(s, c); }
  }

  lemma {:induction false} DeliverKeepsInv(s: System, n: nat, reply: SeqReply)
    requires Inv(s) && Enabled(s, Deliver(n, reply))
    ensures Inv(Apply(s, Deliver(n, reply)))
  {
    assert CallInv(s, n);
    RetriesOnlyWhenCertain(s.calls[n].entries, reply);
    PhaseKeepsInv(s, n, OnReply(s.calls[n].entries, s.calls[n].phase.rpc, reply));
  }

  lemma {:induction false} StepKeepsInv(s: System, a: Action)
    requires Inv(s) && Enabled(s, a)
    ensures Inv(Apply(s, a))
  {
    match a
    case Begin(entries) => BeginKeepsInv(s, entries);
    case Send(c) => SendKeepsInv(s, c);
    case GiveUp(c) => assert CallInv(s, c); PhaseKeepsInv(s, c, ReturnedError);
    case CommitRpc(r) => CommitTiles(s, r); CommitKeepsLog(s, r); CommitKeepsCalls(s, r);
    case RejectRpc(r) => RejectKeepsInv(s, r);
    case Deliver(c, reply) => DeliverKeepsInv(s, c, reply);
    case TimeOut(c) => assert CallInv(s, c); PhaseKeepsInv(s, c, ReturnedUncertain(s.calls[c].phase.rpc));
  }

  lemma {:induction false} RunKeepsInv(acts: seq<Action>)
    requires Exec(acts).Some?
    ensures Inv(Exec(acts).value)
  {
    if acts != [] {
      RunKeepsInv(acts[..|acts| - 1]);
      StepKeepsInv(Exec(acts[..|acts| - 1]).value, acts[|acts| - 1]);
    }
  }

  // ------------------------------------------------------------------
  // What every run guarantees
  // ------------------------------------------------------------------

  /** Density: whatever was lost, retried or committed late, the ordinals a key has handed
      out are exactly those below its counter, each in exactly one committed block. */
  lemma {:induction false} OrdinalsAreDense(acts: seq<Action>, k: Key, v: nat)
    requires Exec(acts).Some?
    ensures var s := Exec(acts).value;
            && (v < Counter(s.counters, k) <==> Covered(Blocks(s.log, k), v))
            && CoveredOnce(Blocks(s.log, k), v)
  {
    RunKeepsInv(acts);
    var s := Exec(acts).value;
    TilesPointwise(Blocks(s.log, k), Counter(s.counters, k), v);
  }

  /** No counter ever leaves 64 bits. */
  lemma {:induction false} CountersFit(acts: seq<Action>, k: Key)
    requires Exec(acts).Some?
    ensures Counter(Exec(acts).value.counters, k) <= 0xFFFF_FFFF_FFFF_FFFF
  {
    if acts != [] {
      var before := acts[..|acts| - 1];
      CountersFit(before, k);
      if acts[|acts| - 1].CommitRpc? {
        var s := Exec(before).value;
        FindsKey(s.calls[s.rpcs[acts[|acts| - 1].rpc].call].entries, k);
      }
    }
  }

  /** A call commits at most once, however often the client re-sent it, and only a call
      that was told so, was told it may have, or is still waiting has committed at all. */
  lemma {:induction false} CommitsAtMostOnce(acts: seq<Action>, j: nat)
    requires Exec(acts).Some? && j < |Exec(acts).value.log|
    ensures var s := Exec(acts).value;
            && s.log[j].call < |s.calls|
            && Current(s.calls[s.log[j].call].phase) == Some(s.log[j].rpc)
            && forall i :: 0 <= i < |s.log| && s.log[i].call == s.log[j].call ==> i == j
  {
    RunKeepsInv(acts);
    var s := Exec(acts).value;
    forall i | 0 <= i < |s.log|
      ensures Current(s.calls[s.log[i].call].phase) == Some(s.log[i].rpc)
    {
      assert CallInv(s, s.log[i].call);
    }
  }

  /** The block list a caller received is the one its single commit reserved, position by
      position; each block is one of the key's tiles. */
  lemma {:induction false} SuccessIsCommitted(acts: seq<Action>, c: nat) returns (j: nat)
    requires Exec(acts).Some? && c < |Exec(acts).value.calls|
    requires Exec(acts).value.calls[c].phase.ReturnedBlocks?
    ensures var s := Exec(acts).value;
            var call := s.calls[c];
            && j < |s.log| && s.log[j].call == c && s.log[j].entries == call.entries
            && |call.phase.blocks| == |call.entries| == |s.log[j].starts|
            && forall i :: 0 <= i < |call.entries| ==>
                 call.phase.blocks[i].start == s.log[j].starts[i] && call.phase.blocks[i].count == call.entries[i].count
  {
    RunKeepsInv(acts);
    var s := Exec(acts).value;
    assert CallInv(s, c);
    j :| 0 <= j < |s.log| && s.log[j].rpc == s.calls[c].phase.rpc;
  }

  predicate Finished(p: Phase) { p.ReturnedBlocks? || p.ReturnedUncertain? || p.ReturnedError? }

  /** Call `c` of `s` is still there in `t`, and a verdict given in `s` stands in `t`. */
  predicate VerdictStands(s: System, t: System, c: nat) {
    c < |s.calls| ==>
      && c < |t.calls| && t.calls[c].entries == s.calls[c].entries
      && (Finished(s.calls[c].phase) ==> t.calls[c].phase == s.calls[c].phase)
  }

  lemma {:induction false} StepKeepsVerdict(s: System, a: Action, c: nat)
    requires Enabled(s, a)
    ensures VerdictStands(s, Apply(s, a), c)
  {
  }

  /** What the caller was told stays as it was. */
  lemma {:induction false} VerdictsAreFinal(acts: seq<Action>, n: nat, c: nat)
    requires n <= |acts| && Exec(acts).Some?
    ensures Exec(acts[..n]).Some? && VerdictStands(Exec(acts[..n]).value, Exec(acts).value, c)
    decreases |acts|
  {
    if n == |acts| {
      assert acts[..n] == acts;
    } else {
      var m := |acts| - 1;
      VerdictsAreFinal(acts[..m], n, c);
      assert acts[..m][..n] == acts[..n];
      StepKeepsVerdict(Exec(acts[..m]).value, acts[m], c);
    }
  }

  /** The exactly-once guarantee behind the client's error types: once a caller has seen
      any error but the uncertain one, nothing of that call is committed then or ever. */
  lemma {:induction false} PlainErrorMeansNoCommit(acts: seq<Action>, n: nat, c: nat)
    requires n <= |acts| && Exec(acts).Some? && Exec(acts[..n]).Some?
    requires c < |Exec(acts[..n]).value.calls| && Exec(acts[..n]).value.calls[c].phase.ReturnedError?
    ensures forall j :: 0 <= j < |Exec(acts).value.log| ==> Exec(acts).value.log[j].call != c
  {
    VerdictsAreFinal(acts, n, c);
    var t := Exec(acts).value;
    forall j | 0 <= j < |t.log|
      ensures t.log[j].call != c
    {
      CommitsAtMostOnce(acts, j);
    }
  }

  /** The block of commit `j` for key `k` is a member of the key's block list, at an index
      that grows with `j`. */
  lemma {:induction false} BlockOfCommit(log: seq<Commit>, k: Key, j: nat) returns (b: nat)
    requires j < |log| && Find(log[j].entries, k) < |log[j].entries| == |log[j].starts|
    ensures b < |Blocks(log, k)| && b == |Blocks(log[..j], k)|
    ensures Blocks(log, k)[b] == Block(log[j].starts[Find(log[j].entries, k)], log[j].entries[Find(log[j].entries, k)].count)
  {
    var n := |log| - 1;
    if j == n {
      b := |Blocks(log[..n], k)|;
    } else {
      b := BlockOfCommit(log[..n], k, j);
      assert log[..n][..j] == log[..j];
    }
  }

  lemma {:induction false} BlocksGrow(log: seq<Commit>, k: Key, i: nat, j: nat)
    requires i < j <= |log| && Find(log[i].entries, k) < |log[i].entries| == |log[i].starts|
    ensures |Blocks(log[..i], k)| < |Blocks(log[..j], k)|
    decreases j
  {
    assert log[..j][..j - 1] == log[..j - 1];
    if j == i + 1 {
      assert log[..j][i] == log[i];
    } else {
      BlocksGrow(log, k, i, j - 1);
    }
  }

  lemma {:induction false} CommitsAreDisjoint(log: seq<Commit>, end: nat, k: Key, i: nat, j: nat, v: nat)
    requires Tiles(Blocks(log, k), end) && i < j < |log|
    requires Find(log[i].entries, k) < |log[i].entries| == |log[i].starts|
    requires Find(log[j].entries, k) < |log[j].entries| == |log[j].starts|
    ensures var x := Find(log[i].entries, k);
            var y := Find(log[j].entries, k);
            !(Covers(Block(log[i].starts[x], log[i].entries[x].count), v)
              && Covers(Block(log[j].starts[y], log[j].entries[y].count), v))
  {
    var a := BlockOfCommit(log, k, i);
    var b := BlockOfCommit(log, k, j);
    BlocksGrow(log, k, i, j);
    TilesPointwise(Blocks(log, k), end, v);
  }

  /** Position `p` of call `c`'s answer, as a block of its key. */
  function Received(s: System, c: nat, p: nat): Block
    requires c < |s.calls| && s.calls[c].phase.ReturnedBlocks? && p < |s.calls[c].phase.blocks|
  {
    Block(s.calls[c].phase.blocks[p].start, s.calls[c].phase.blocks[p].count)
  }

  lemma {:induction false} ReceivedIsCommitted(acts: seq<Action>, c: nat, p: nat) returns (j: nat)
    requires Exec(acts).Some? && c < |Exec(acts).value.calls|
    requires var call := Exec(acts).value.calls[c];
             call.phase.ReturnedBlocks? && p < |call.entries| && p < |call.phase.blocks|
    ensures var s := Exec(acts).value;
            && j < |s.log| && s.log[j].call == c && |s.log[j].entries| == |s.log[j].starts|
            && p < |s.log[j].entries| && Find(s.log[j].entries, s.calls[c].entries[p].key) == p
            && Received(s, c, p) == Block(s.log[j].starts[p], s.log[j].entries[p].count)
  {
    var s := Exec(acts).value;
    j := SuccessIsCommitted(acts, c);
    assert DistinctKeys(s.calls[c].entries) by {
      RunKeepsInv(acts);
      assert CallInv(s, c);
    }
    FindUnique(s.calls[c].entries, p);
  }

  /** Two callers never receive the same ordinal of the same key. */
  lemma {:induction false} SuccessesAreDisjoint(acts: seq<Action>, c: nat, p: nat, d: nat, q: nat, v: nat)
    requires Exec(acts).Some? && c < |Exec(acts).value.calls| && d < |Exec(acts).value.calls| && c != d
    requires var call := Exec(acts).value.calls[c];
             call.phase.ReturnedBlocks? && p < |call.entries| && p < |call.phase.blocks|
    requires var call := Exec(acts).value.calls[d];
             call.phase.ReturnedBlocks? && q < |call.entries| && q < |call.phase.blocks|
    requires Exec(acts).value.calls[c].entries[p].key == Exec(acts).value.calls[d].entries[q].key
    ensures !(Covers(Received(Exec(acts).value, c, p), v) && Covers(Received(Exec(acts).value, d, q), v))
  {
    var s := Exec(acts).value;
    var k := s.calls[c].entries[p].key;
    var i := ReceivedIsCommitted(acts, c, p);
    var j := ReceivedIsCommitted(acts, d, q);
    assert Tiles(Blocks(s.log, k), Counter(s.counters, k)) by { RunKeepsInv(acts); }
    if i < j {
      CommitsAreDisjoint(s.log, Counter(s.counters, k), k, i, j, v);
    } else {
      CommitsAreDisjoint(s.log, Counter(s.counters, k), k, j, i, v);
    }
  }

  // ------------------------------------------------------------------
  // Why the uncertain verdict is needed
  // ------------------------------------------------------------------

  lemma {:induction false} Extend(acts: seq<Action>, a: Action, s: System)
    requires Exec(acts) == Some(s) && Enabled(s, a)
    ensures Exec(acts + [a]) == Some(Apply(s, a))
  {
    assert (acts + [a])[..|acts|] == acts;
  }

  /** An uncertain call may already have committed, may commit later, or never: no
      stronger verdict would be right at the moment it is given. */
  lemma {:induction false} UncertainIsOpen(entries: seq<Entry>)
    requires WellFormedBatch(entries) && !Overflows(map[], entries)
    ensures var gaveUp := [Begin(entries), Send(0), TimeOut(0)];
            && Exec(gaveUp).Some? && Exec(gaveUp).value.calls[0].phase.ReturnedUncertain? && Exec(gaveUp).value.log == []
            && Exec(gaveUp + [CommitRpc(0)]).Some? && |Exec(gaveUp + [CommitRpc(0)]).value.log| == 1
            && Exec(gaveUp + [RejectRpc(0)]).Some? && Exec(gaveUp + [RejectRpc(0)]).value.log == []
  {
    var s1 := INITIAL.(calls := [CallState(entries, Ready)]);
    var s2 := s1.(calls := [CallState(entries, Waiting(0))], rpcs := [RpcState(0, InFlight)]);
    var s3 := s2.(calls := [CallState(entries, ReturnedUncertain(0))]);
    var a1, a2, a3 := [Begin(entries)], [Begin(entries), Send(0)], [Begin(entries), Send(0), TimeOut(0)];
    Extend([], Begin(entries), INITIAL);
    assert [] + [Begin(entries)] == a1 && a1 + [Send(0)] == a2 && a2 + [TimeOut(0)] == a3;
    assert Apply(INITIAL, Begin(entries)) == s1;
    Extend(a1, Send(0), s1);
    assert Apply(s1, Send(0)) == s2;
    Extend(a2, TimeOut(0), s2);
    assert Apply(s2, TimeOut(0)) == s3;
    Extend(a3, CommitRpc(0), s3);
    Extend(a3, RejectRpc(0), s3);
  }

  // ------------------------------------------------------------------
  // The server side: replies are honest
  // ------------------------------------------------------------------

  /** What the consensus driver's batched fetch-add can answer. */
  datatype DriverResult =
    | Advanced(starts: seq<nat>)
    | KeyCardinalityExceeded
    | CounterOverflow
    | DriverNotLeader
    | DriverFenced
    | DenseUnsupported
    | BatchNotActivated
    | TransientFault
    | OtherFault

  /** The driver contract: success reports the committed starts, a refusal is final, and
      faults say nothing. */
  predicate DriverContract(result: DriverResult, status: RpcStatus) {
    match result
    case Advanced(starts) => status == Committed(starts)
    case TransientFault => true
    case OtherFault => true
    case _ => status.Rejected?
  }

  /** Nothing is wrong with the request itself. */
  ghost predicate Acceptable(maxKeys: nat, maxCount: nat, entries: seq<Entry>) {
    WellFormedBatch(entries) && |entries| <= maxKeys && forall i :: 0 <= i < |entries| ==> entries[i].count <= maxCount
  }

  /** The requests that reach the driver at all. */
  ghost predicate Admitted(serving: bool, leads: seq<bool>, epoch: Option<nat>, maxKeys: nat, maxCount: nat, entries: seq<Entry>)
    requires |leads| == |entries|
  {
    serving && (forall i :: 0 <= i < |leads| ==> leads[i]) && epoch.Some? && Acceptable(maxKeys, maxCount, entries)
  }

  function BlockOverflows(start: nat, count: nat): bool { start + count - 1 > U64_MAX }

  /** The reply to a driver answer. */
  method ReplyTo(entries: seq<Entry>, epoch: nat, result: DriverResult, notLeader: SeqReply) returns (reply: SeqReply)
    requires notLeader.Refused? && notLeader.status.code.FailedPrecondition?
    ensures reply.Granted? <==>
              && result.Advanced? && |result.starts| == |entries|
              && forall i :: 0 <= i < |entries| ==> result.starts[i] + entries[i].count - 1 <= U64_MAX
    ensures reply.Granted? ==> Matches(entries, reply) && reply.epoch == Some(epoch)
                               && forall i :: 0 <= i < |entries| ==> reply.grants[i].start == result.starts[i]
    ensures reply.Refused? ==> (PreCommitCertain(reply.status.code) <==>
                                  !(result.Advanced? || result.TransientFault? || result.OtherFault?))
    ensures result.DriverNotLeader? || result.DriverFenced? ==> reply == notLeader
    ensures result.CounterOverflow? || result.BatchNotActivated? ==> reply.status == Status(FailedPrecondition, Absent)
    ensures result.KeyCardinalityExceeded? ==> reply.status.code == ResourceExhausted
    ensures result.DenseUnsupported? ==> reply.status.code == Unimplemented
    ensures result.TransientFault? ==> reply.status.code == Unavailable
    ensures result.OtherFault? ==> reply.status.code == Internal
  {
    match result
    case Advanced(starts) =>
      if |starts| != |entries| { return Refused(Status(Internal, Absent), None, false); }
      var grants: seq<Grant> := [];
      for i := 0 to |entries|
        invariant |grants| == i
        invariant forall j :: 0 <= j < i ==> grants[j] == Grant(entries[j].key, starts[j], entries[j].count)
                                             && !BlockOverflows(starts[j], entries[j].count)
      {
        if BlockOverflows(starts[i], entries[i].count) { return Refused(Status(Internal, Absent), None, false); }
        grants := grants + [Grant(entries[i].key, starts[i], entries[i].count)];
      }
      return Granted(grants, Some(epoch));
    case KeyCardinalityExceeded => return Refused(Status(ResourceExhausted, Absent), None, false);
    case CounterOverflow => return Refused(Status(FailedPrecondition, Absent), None, false);
    case DriverNotLeader => return notLeader;
    case DriverFenced => return notLeader;
    case DenseUnsupported => return Refused(Status(Unimplemented, Absent), None, false);
    case BatchNotActivated => return Refused(Status(FailedPrecondition, Absent), None, false);
    case TransientFault => return Refused(Status(Unavailable, Absent), None, false);
    case OtherFault => return Refused(Status(Internal, Absent), None, false);
  }

  /** The batch handler.  `leads[i]` is whether the node found itself leader when it looked at
      entry `i`, `notLeader` is the redirect the server would give, and `status` is
      what becomes of the request.  Whatever the driver does within its contract, the
      reply is one the client's classification may rely on. */
  method GetSeqBatch(serving: bool, leads: seq<bool>, epoch: Option<nat>, maxKeys: nat, maxCount: nat,
                     entries: seq<Entry>, result: DriverResult, notLeader: SeqReply, ghost status: RpcStatus)
    returns (reply: SeqReply)
    requires |leads| == |entries| && notLeader.Refused? && notLeader.status.code.FailedPrecondition?
    requires if Admitted(serving, leads, epoch, maxKeys, maxCount, entries) then DriverContract(result, status) else status.Rejected?
    ensures Honest(status, entries, reply)
    ensures reply.Granted? ==> Admitted(serving, leads, epoch, maxKeys, maxCount, entries) && Matches(entries, reply) && reply.epoch == epoch
    ensures !Admitted(serving, leads, epoch, maxKeys, maxCount, entries) ==>
              reply == notLeader || (reply.Refused? && reply.status.code == InvalidArgument)
    ensures !serving ==> reply == notLeader
    ensures serving && (entries == [] || |entries| > maxKeys || !DistinctKeys(entries)) ==> reply.Refused? && reply.status.code == InvalidArgument
    ensures Acceptable(maxKeys, maxCount, entries) && !Admitted(serving, leads, epoch, maxKeys, maxCount, entries) ==> reply == notLeader
    ensures !Acceptable(maxKeys, maxCount, entries) && serving && (forall i :: 0 <= i < |leads| ==> leads[i]) ==>
              reply.Refused? && reply.status.code == InvalidArgument
  {
    if !serving { return notLeader; }
    if entries == [] { return Refused(Status(InvalidArgument, Absent), None, false); }
    if |entries| > maxKeys { return Refused(Status(InvalidArgument, Absent), None, false); }
    var seen: set<Key> := {};
    for i := 0 to |entries|
      invariant forall k :: k in seen <==> exists j :: 0 <= j < i && entries[j].key == k
      invariant forall h, j :: 0 <= h < j < i ==> entries[h].key != entries[j].key
    {
      if entries[i].key in seen { return Refused(Status(InvalidArgument, Absent), None, false); }
      seen := seen + {entries[i].key};
    }
    for i := 0 to |entries|
      invariant forall j :: 0 <= j < i ==> leads[j] && KeyOk(entries[j].key) && 1 <= entries[j].count <= maxCount
    {
      if !leads[i] { return notLeader; }
      if !KeyOk(entries[i].key) { return Refused(Status(InvalidArgument, Absent), None, false); }
      if entries[i].count == 0 || entries[i].count > maxCount { return Refused(Status(InvalidArgument, Absent), None, false); }
    }
    if epoch.None? { return notLeader; }
    reply := ReplyTo(entries, epoch.value, result, notLeader);
  }
}
