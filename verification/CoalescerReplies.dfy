/** Why every waiter of the coalescing driver hears what it hears, and when its queue is flushed. */
module CoalescerReplies {
  import opened Wrappers
  import opened ClientTypes
  import opened Timestamps
  import opened Chunking
  import opened Coalescer
  import opened CoalescerRuns

  // ------------------------------------------------------------------
  // Why a waiter hears what it hears
  // ------------------------------------------------------------------

  /** A request that one RPC can carry. */
  predicate FitsOneRpc(count: nat) { 1 <= count <= MAX_TIMESTAMPS_PER_RPC }

  /** The RPC gave cause to report `e`: it failed with that error, or with a transport error of
      which only a copy can be passed on, or it returned another number than was asked for. */
  predicate Blames(r: RpcRecord, e: ClientError) {
    && r.result.Some?
    && match r.result.value
       case Failure(err) => if err.Transport? then e.TransportFanout? else e == err
       case Success(range) => range.count != r.total && e == Rpc(Status(Internal, Absent))
  }

  /** The timestamps are as many as asked for, out of the range this RPC returned in full. */
  predicate TakenFrom(r: RpcRecord, timestamps: seq<int>, count: nat) {
    && Succeeded(r) && r.result.value.value.count == r.total
    && |timestamps| == count >= 1 && timestamps == Consecutive(timestamps[0], count)
    && First(r.result.value.value) <= timestamps[0]
    && timestamps[0] + count <= First(r.result.value.value) + r.total
  }

  /** The outcome of `id` has its cause.  Whoever asked for what no RPC can carry is told so;
      everyone else gets timestamps of, or the error of, an RPC issued after they had been
      received, or is dropped by a task that ended. */
  ghost predicate Caused(o: Outcome, id: nat, counts: seq<nat>, rpcs: seq<RpcRecord>, alive: bool) {
    && id < |counts|
    && match o
       case Slice(timestamps, r) => FitsOneRpc(counts[id]) && r < |rpcs| && id < rpcs[r].received && TakenFrom(rpcs[r], timestamps, counts[id])
       case Failed(e) =>
         if FitsOneRpc(counts[id]) then exists r :: 0 <= r < |rpcs| && id < rpcs[r].received && Blames(rpcs[r], e)
         else e == ClientError.InvalidCount(counts[id])
       case Dropped => alive ==> FitsOneRpc(counts[id])
  }

  ghost predicate CausedAt(s: State, id: nat) { id in s.replies ==> Caused(s.replies[id], id, s.counts, s.rpcs, s.alive) }

  /** What the batch remembers of its last RPC. */
  ghost predicate OriginInv(s: State) {
    s.batch.Some? ==>
      && (s.batch.value.awaiting ==>
            && s.rpcs != [] && s.rpcs[|s.rpcs| - 1].result.None?
            && s.batch.value.chunks != [] && s.rpcs[|s.rpcs| - 1].total == s.batch.value.chunks[0].total)
      && (s.batch.value.failed.Some? ==>
            && s.rpcs != [] && Blames(s.rpcs[|s.rpcs| - 1], s.batch.value.failed.value)
            && !s.batch.value.failed.value.Transport?
            && Below(BatchWaiters(s), s.rpcs[|s.rpcs| - 1].received))
  }

  lemma {:induction false} StepKeepsOrigin(f: nat, s: State, a: Action)
    requires OriginInv(s) && ShapeInv(s) && ReceiptInv(s) && Enabled(f, s, a)
    ensures OriginInv(Apply(f, s, a))
  {
    match a {
      case Return(_) => FlattenHead(s.batch.value.chunks);
      case FailFast => FlattenHead(s.batch.value.chunks);
      case _ =>
    }
  }

  /** An answer is one of those just given, or an old one. */
  lemma {:induction false} FromAnswer(replies: map<nat, Outcome>, ws: seq<Waiter>, outs: seq<Outcome>, id: nat) returns (i: nat)
    requires |outs| == |ws| && id in Answer(replies, ws, outs)
    ensures i <= |ws|
    ensures i < |ws| ==> ws[i].id == id && Answer(replies, ws, outs)[id] == outs[i]
    ensures i == |ws| ==> id in replies && Answer(replies, ws, outs)[id] == replies[id]
  {
    if ws == [] {
      i := 0;
    } else {
      var n := |ws| - 1;
      if ws[n].id == id {
        i := n;
      } else {
        i := FromAnswer(replies, ws[..n], outs[..n], id);
        if i == n { i := |ws|; }
      }
    }
  }

  /** Waiting or not, an accepted waiter is known by its count. */
  lemma {:induction false} PendingIsKnown(s: State, w: Waiter)
    requires FlowInv(s) && w in Pending(s)
    ensures w.id < |s.counts| && s.counts[w.id] == w.count
  {
  }

  lemma {:induction false} RejectionIsCaused(s: State, id: nat)
    requires FlowInv(s) && s.batch.None? && CausedAt(s, id)
    ensures CausedAt(AfterFlush(s), id)
  {
    var gone := Invalid(s.queue);
    if id in AfterFlush(s).replies {
      var i := FromAnswer(s.replies, gone, Rejections(gone), id);
      if i < |gone| {
        ValidOrInvalid(s.queue, gone[i]);
        PendingIsKnown(s, gone[i]);
      }
    }
  }

  /** Old causes stay while RPCs are added and the last one's result comes in. */
  lemma {:induction false} CauseStays(o: Outcome, id: nat, counts: seq<nat>, rpcs: seq<RpcRecord>, rpcs': seq<RpcRecord>, alive: bool)
    requires Caused(o, id, counts, rpcs, alive) && |rpcs| <= |rpcs'|
    requires forall r :: 0 <= r < |rpcs| && rpcs[r].result.Some? ==> rpcs'[r] == rpcs[r]
    ensures Caused(o, id, counts, rpcs', alive)
  {
    if o.Failed? && FitsOneRpc(counts[id]) {
      var r :| 0 <= r < |rpcs| && id < rpcs[r].received && Blames(rpcs[r], o.error);
      assert rpcs'[r] == rpcs[r];
    }
  }

  lemma {:induction false} CountsGrow(o: Outcome, id: nat, counts: seq<nat>, counts': seq<nat>, rpcs: seq<RpcRecord>, alive: bool)
    requires Caused(o, id, counts, rpcs, alive) && counts <= counts'
    ensures Caused(o, id, counts', rpcs, alive)
  {
  }

  /** What the waiters of the first chunk get from its RPC is caused by it. */
  lemma {:induction false} ReplyIsCaused(c: Chunk, result: RpcResult, rpcs: seq<RpcRecord>, i: nat, counts: seq<nat>, alive: bool)
    requires rpcs != [] && rpcs[|rpcs| - 1].result == Some(result) && rpcs[|rpcs| - 1].total == c.total
    requires ChunkOk(c) && i < |c.waiters|
    requires c.waiters[i].id < |counts| && counts[c.waiters[i].id] == c.waiters[i].count && c.waiters[i].id < rpcs[|rpcs| - 1].received
    ensures Caused(OutcomeOf(c, result, |rpcs| - 1, i), c.waiters[i].id, counts, rpcs, alive)
  {
    AllServableAt(c.waiters, i);
    SlicesFollow(c, i, i + 1);
    var o := OutcomeOf(c, result, |rpcs| - 1, i);
    if o.Slice? {
      assert o.timestamps[0] == First(result.value) + Sum(c.waiters[..i]);
    } else {
      assert Blames(rpcs[|rpcs| - 1], o.error);
    }
  }

  lemma {:induction false} NewReplyIsCaused(s: State, result: RpcResult, i: nat)
    requires FlowInv(s) && ShapeInv(s) && ReceiptInv(s) && OriginInv(s) && Enabled(0, s, Return(result))
    requires i < |s.batch.value.chunks[0].waiters|
    ensures var c, rpcs := s.batch.value.chunks[0], AfterReturn(s, result).rpcs;
            Caused(OutcomeOf(c, result, |s.rpcs| - 1, i), c.waiters[i].id, s.counts, rpcs, s.alive)
  {
    HeadWaiter(s, i);
    ReplyIsCaused(s.batch.value.chunks[0], result, AfterReturn(s, result).rpcs, i, s.counts, s.alive);
  }

  lemma {:induction false} OldReplyIsCaused(s: State, result: RpcResult, id: nat)
    requires OriginInv(s) && Enabled(0, s, Return(result)) && id in s.replies && CausedAt(s, id)
    ensures Caused(s.replies[id], id, s.counts, AfterReturn(s, result).rpcs, s.alive)
  {
    CauseStays(s.replies[id], id, s.counts, s.rpcs, AfterReturn(s, result).rpcs, s.alive);
  }

  lemma {:induction false} ReturnIsCaused(s: State, result: RpcResult, id: nat)
    requires FlowInv(s) && ShapeInv(s) && ReceiptInv(s) && OriginInv(s) && Enabled(0, s, Return(result)) && CausedAt(s, id)
    ensures CausedAt(AfterReturn(s, result), id)
  {
    var c, t := s.batch.value.chunks[0], AfterReturn(s, result);
    if id in t.replies {
      var i := FromAnswer(s.replies, c.waiters, Outcomes(c, result, |s.rpcs| - 1), id);
      if i < |c.waiters| {
        NewReplyIsCaused(s, result, i);
      } else {
        OldReplyIsCaused(s, result, id);
      }
    }
  }

  lemma {:induction false} FailFastIsCaused(s: State, id: nat)
    requires FlowInv(s) && ShapeInv(s) && OriginInv(s) && Enabled(0, s, FailFast) && CausedAt(s, id)
    ensures CausedAt(AfterFailFast(s), id)
  {
    var c, e, t := s.batch.value.chunks[0], s.batch.value.failed.value, AfterFailFast(s);
    if id in t.replies {
      var i := FromAnswer(s.replies, c.waiters, Outcomes(c, Failure(CloneError(e)), 0), id);
      if i < |c.waiters| {
        ChunkWaiter(s, i);
        assert t.replies[id] == Failed(e);
        assert Blames(s.rpcs[|s.rpcs| - 1], e);
      }
    }
  }

  /** A waiter of the first chunk. */
  lemma {:induction false} ChunkWaiter(s: State, i: nat)
    requires FlowInv(s) && ShapeInv(s) && s.batch.Some? && s.batch.value.chunks != [] && i < |s.batch.value.chunks[0].waiters|
    ensures var w := s.batch.value.chunks[0].waiters[i];
            Servable(w) && w in BatchWaiters(s) && w.id < |s.counts| && s.counts[w.id] == w.count
  {
    var chunks := s.batch.value.chunks;
    AllServableAt(chunks[0].waiters, i);
    FlattenHead(chunks);
    PendingIsKnown(s, chunks[0].waiters[i]);
  }

  lemma {:induction false} BatchedAreServable(chunks: seq<Chunk>, w: Waiter)
    requires ChunksOk(chunks) && w in Flatten(chunks)
    ensures Servable(w)
  {
    var n := |chunks| - 1;
    if w in chunks[n].waiters {
      var i :| 0 <= i < |chunks[n].waiters| && chunks[n].waiters[i] == w;
      AllServableAt(chunks[n].waiters, i);
    } else {
      BatchedAreServable(chunks[..n], w);
    }
  }

  lemma {:induction false} PanicIsCaused(s: State, id: nat)
    requires FlowInv(s) && ShapeInv(s) && CausedAt(s, id)
    ensures CausedAt(AfterPanic(s), id)
  {
    var gone := BatchWaiters(s);
    if id in AfterPanic(s).replies {
      var i := FromAnswer(s.replies, gone, Drops(gone), id);
      if i < |gone| {
        BatchedAreServable(s.batch.value.chunks, gone[i]);
        PendingIsKnown(s, gone[i]);
      }
    }
  }

  lemma {:induction false} StopIsCaused(s: State, id: nat)
    requires FlowInv(s) && CausedAt(s, id)
    ensures CausedAt(AfterStop(s), id)
  {
    var gone := s.queue + s.channel;
    if id in AfterStop(s).replies {
      var i := FromAnswer(s.replies, gone, Drops(gone), id);
      if i < |gone| { PendingIsKnown(s, gone[i]); }
    }
  }

  lemma {:induction false} StepIsCaused(f: nat, s: State, a: Action, id: nat)
    requires FlowInv(s) && ShapeInv(s) && ReceiptInv(s) && OriginInv(s) && Enabled(f, s, a) && CausedAt(s, id)
    ensures CausedAt(Apply(f, s, a), id)
  {
    match a {
      case Send(count) => if id in s.replies { CountsGrow(s.replies[id], id, s.counts, s.counts + [count], s.rpcs, s.alive); }
      case Receive(_) =>
      case Flush(_) => RejectionIsCaused(s, id);
      case Issue => if id in s.replies { CauseStays(s.replies[id], id, s.counts, s.rpcs, AfterIssue(s).rpcs, s.alive); }
      case Return(result) => ReturnIsCaused(s, result, id);
      case FailFast => FailFastIsCaused(s, id);
      case Join =>
      case Panic => PanicIsCaused(s, id);
      case Stop => StopIsCaused(s, id);
    }
  }

  lemma {:induction false} RunKeepsOrigin(f: nat, acts: seq<Action>)
    requires Exec(f, acts).Some?
    ensures OriginInv(Exec(f, acts).value)
  {
    if acts != [] {
      var before := acts[..|acts| - 1];
      RunKeepsOrigin(f, before);
      CapacityHolds(f, before);
      SlicesAreExactAndFresh(f, before, 0);
      StepKeepsOrigin(f, Exec(f, before).value, acts[|acts| - 1]);
    }
  }

  /** In every reachable state every outcome has its cause. */
  lemma {:induction false} EveryReplyIsCaused(f: nat, acts: seq<Action>, id: nat)
    requires Exec(f, acts).Some?
    ensures CausedAt(Exec(f, acts).value, id)
  {
    if acts != [] {
      var before := acts[..|acts| - 1];
      EveryReplyIsCaused(f, before, id);
      RunKeepsFlow(f, before);
      CapacityHolds(f, before);
      SlicesAreExactAndFresh(f, before, id);
      RunKeepsOrigin(f, before);
      StepIsCaused(f, Exec(f, before).value, acts[|acts| - 1], id);
    }
  }

  /** As long as the driver lives, a waiter hears that its count is invalid exactly when no RPC
      can carry it, and hears its own count, unless an RPC itself reported such an error. */
  lemma {:induction false} InvalidCountIsExact(f: nat, acts: seq<Action>, id: nat)
    requires Exec(f, acts).Some? && Exec(f, acts).value.alive && id in Exec(f, acts).value.replies
    ensures var s := Exec(f, acts).value;
            && id < |s.counts|
            && (s.counts[id] == 0 || s.counts[id] > MAX_TIMESTAMPS_PER_RPC ==>
                  s.replies[id] == Failed(ClientError.InvalidCount(s.counts[id])))
            && (s.replies[id].Failed? && s.replies[id].error.InvalidCount? && 1 <= s.counts[id] <= MAX_TIMESTAMPS_PER_RPC ==>
                  exists r :: 0 <= r < |s.rpcs| && s.rpcs[r].result == Some(Failure(s.replies[id].error)))
  {
    EveryReplyIsCaused(f, acts, id);
    var s := Exec(f, acts).value;
    OnlyRpcsBlame(s.replies[id], id, s.counts, s.rpcs, s.alive);
  }

  lemma {:induction false} OnlyRpcsBlame(o: Outcome, id: nat, counts: seq<nat>, rpcs: seq<RpcRecord>, alive: bool)
    requires Caused(o, id, counts, rpcs, alive)
    ensures o.Failed? && o.error.InvalidCount? && FitsOneRpc(counts[id]) ==>
              exists r :: 0 <= r < |rpcs| && rpcs[r].result == Some(Failure(o.error))
  {
    if o.Failed? && o.error.InvalidCount? && FitsOneRpc(counts[id]) {
      var r :| 0 <= r < |rpcs| && id < rpcs[r].received && Blames(rpcs[r], o.error);
      assert rpcs[r].result == Some(Failure(o.error));
    }
  }

  /** No task ended before its time. */
  predicate Undisturbed(acts: seq<Action>) { forall i :: 0 <= i < |acts| ==> !acts[i].Panic? && !acts[i].Stop? }

  /** Only a task that ended drops a waiter. */
  lemma {:induction false} OnlyEndedTasksDrop(f: nat, acts: seq<Action>, id: nat)
    requires Exec(f, acts).Some? && Undisturbed(acts)
    ensures Exec(f, acts).value.alive
    ensures id in Exec(f, acts).value.replies ==> !Exec(f, acts).value.replies[id].Dropped?
  {
    if acts != [] {
      var before, a := acts[..|acts| - 1], acts[|acts| - 1];
      OnlyEndedTasksDrop(f, before, id);
      var s := Exec(f, before).value;
      if id in Apply(f, s, a).replies {
        match a {
          case Flush(_) => var i := FromAnswer(s.replies, Invalid(s.queue), Rejections(Invalid(s.queue)), id);
          case Return(result) =>
            var c := s.batch.value.chunks[0];
            var i := FromAnswer(s.replies, c.waiters, Outcomes(c, result, |s.rpcs| - 1), id);
          case FailFast =>
            var c := s.batch.value.chunks[0];
            var i := FromAnswer(s.replies, c.waiters, Outcomes(c, Failure(CloneError(s.batch.value.failed.value)), 0), id);
          case _ =>
        }
      }
    }
  }

  // ------------------------------------------------------------------
  // When the queue is flushed
  // ------------------------------------------------------------------

  /** When the driver received each waiter, in order. */
  function ReceivedAt(acts: seq<Action>): seq<nat> {
    if acts == [] then []
    else
      var a := acts[|acts| - 1];
      ReceivedAt(acts[..|acts| - 1]) + (if a.Receive? then [a.now] else [])
  }

  /** The queue holds the latest waiters received, and the time kept is that of its oldest. */
  ghost predicate ArrivalInv(s: State, times: seq<nat>) {
    && |times| == s.received && |s.queue| <= s.received
    && (forall i :: 0 <= i < |s.queue| ==> s.queue[i].id == s.received - |s.queue| + i)
    && (s.queue != [] ==> s.firstArrival == Some(times[s.received - |s.queue|]))
    && (s.queue == [] ==> s.firstArrival.None?)
  }

  lemma {:induction false} RunKeepsArrival(f: nat, acts: seq<Action>)
    requires Exec(f, acts).Some?
    ensures ArrivalInv(Exec(f, acts).value, ReceivedAt(acts))
  {
    if acts != [] {
      var before := acts[..|acts| - 1];
      RunKeepsArrival(f, before);
      SlicesAreExactAndFresh(f, before, 0);
      ArrivalStep(f, Exec(f, before).value, acts[|acts| - 1], ReceivedAt(before));
    }
  }

  lemma {:induction false} ArrivalStep(f: nat, s: State, a: Action, times: seq<nat>)
    requires ArrivalInv(s, times) && ReceiptInv(s) && Enabled(f, s, a)
    ensures ArrivalInv(Apply(f, s, a), times + if a.Receive? then [a.now] else [])
  {
    assert times + [] == times;
  }

  /** In every reachable state a flush may happen exactly when the driver lives, has no batch
      out and has waiters queued, the oldest of which it received a full interval ago. */
  lemma {:induction false} FlushWhenOldestIsDue(f: nat, acts: seq<Action>, now: nat)
    requires Exec(f, acts).Some?
    ensures var s := Exec(f, acts).value;
            && (s.queue != [] ==> s.queue[0].id < |ReceivedAt(acts)|)
            && (Enabled(f, s, Flush(now)) <==>
                  && s.alive && s.batch.None? && s.queue != []
                  && (f == 0 || now >= ReceivedAt(acts)[s.queue[0].id] + f))
  {
    RunKeepsArrival(f, acts);
  }
}
