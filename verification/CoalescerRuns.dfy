/** What every run of the coalescing driver guarantees to its callers. */
module CoalescerRuns {
  import opened Wrappers
  import opened ClientTypes
  import opened Timestamps
  import opened Chunking
  import opened Coalescer

  // ------------------------------------------------------------------
  // One outcome per waiter
  // ------------------------------------------------------------------

  /** In every reachable state an accepted waiter is waiting in exactly one place or has
      been answered, and nobody else has. */
  lemma {:induction false} WaitingOrAnswered(f: nat, acts: seq<Action>, id: nat)
    requires Exec(f, acts).Some?
    ensures var s := Exec(f, acts).value;
            && (id in s.replies || id in Ids(Pending(s)) <==> id < |s.counts|)
            && !(id in s.replies && id in Ids(Pending(s)))
            && forall i, j :: 0 <= i < |Pending(s)| && 0 <= j < |Pending(s)| && Pending(s)[i].id == Pending(s)[j].id ==> i == j
  {
    RunKeepsFlow(f, acts);
    var s := Exec(f, acts).value;
    UpToHas(|s.counts|, id);
    assert id in s.replies.Keys + Ids(Pending(s)) <==> id in UpTo(|s.counts|);
  }

  predicate Kept(old_: map<nat, Outcome>, new_: map<nat, Outcome>) {
    forall id :: id in old_ ==> id in new_ && new_[id] == old_[id]
  }

  lemma {:induction false} AnswerKeeps(replies: map<nat, Outcome>, gone: seq<Waiter>, outs: seq<Outcome>)
    requires |outs| == |gone| && replies.Keys !! Ids(gone)
    ensures Kept(replies, Answer(replies, gone, outs))
  {
    AnswerKeys(replies, gone, outs);
  }

  lemma {:induction false} PartIsFresh(counts: seq<nat>, replies: map<nat, Outcome>, pending: seq<Waiter>, gone: seq<Waiter>)
    requires Flow(counts, replies, pending) && forall w :: w in gone ==> w in pending
    ensures replies.Keys !! Ids(gone)
  {
    assert Ids(gone) <= Ids(pending);
  }

  lemma {:induction false} StepKeepsReplies(f: nat, s: State, a: Action)
    requires FlowInv(s) && Enabled(f, s, a)
    ensures Kept(s.replies, Apply(f, s, a).replies) && s.counts <= Apply(f, s, a).counts
  {
    match a {
      case Flush(_) =>
        var gone := Invalid(s.queue);
        forall w | w in gone ensures w in Pending(s) { ValidOrInvalid(s.queue, w); }
        PartIsFresh(s.counts, s.replies, Pending(s), gone);
        AnswerKeeps(s.replies, gone, Rejections(gone));
      case Return(result) => DeliveredKeeps(s, result, |s.rpcs| - 1);
      case FailFast => DeliveredKeeps(s, Failure(CloneError(s.batch.value.failed.value)), 0);
      case Panic =>
        PartIsFresh(s.counts, s.replies, Pending(s), BatchWaiters(s));
        AnswerKeeps(s.replies, BatchWaiters(s), Drops(BatchWaiters(s)));
      case Stop =>
        PartIsFresh(s.counts, s.replies, Pending(s), s.queue + s.channel);
        AnswerKeeps(s.replies, s.queue + s.channel, Drops(s.queue + s.channel));
      case _ =>
    }
  }

  lemma {:induction false} DeliveredKeeps(s: State, result: RpcResult, rpc: nat)
    requires FlowInv(s) && s.batch.Some? && s.batch.value.chunks != []
    ensures var c := s.batch.value.chunks[0];
            s.replies.Keys !! Ids(c.waiters) && Kept(s.replies, Answer(s.replies, c.waiters, Outcomes(c, result, rpc)))
  {
    var c := s.batch.value.chunks[0];
    HeadOfPending(s);
    PartIsFresh(s.counts, s.replies, Pending(s), c.waiters);
    AnswerKeeps(s.replies, c.waiters, Outcomes(c, result, rpc));
  }

  /** An answer, once given, is the waiter's only one. */
  lemma {:induction false} AnswersAreFinal(f: nat, acts: seq<Action>, n: nat)
    requires n <= |acts| && Exec(f, acts).Some?
    ensures Exec(f, acts[..n]).Some? && Kept(Exec(f, acts[..n]).value.replies, Exec(f, acts).value.replies)
    decreases |acts|
  {
    if n == |acts| {
      assert acts[..n] == acts;
    } else {
      var m := |acts| - 1;
      AnswersAreFinal(f, acts[..m], n);
      assert acts[..m][..n] == acts[..n];
      RunKeepsFlow(f, acts[..m]);
      StepKeepsReplies(f, Exec(f, acts[..m]).value, acts[m]);
    }
  }

  // ------------------------------------------------------------------
  // Memory bounds and the shape of a batch
  // ------------------------------------------------------------------

  ghost predicate ShapeInv(s: State) {
    && |s.channel| <= HALF && |s.queue| <= HALF && |BatchWaiters(s)| <= HALF
    && (s.firstArrival.Some? <==> s.queue != [])
    && (!s.alive ==> s.queue == [] && s.channel == [])
    && (s.batch.Some? ==> ChunksOk(s.batch.value.chunks)
                          && (s.batch.value.awaiting ==> s.batch.value.chunks != [] && s.batch.value.failed.None?))
  }

  lemma {:induction false} FlushKeepsShape(s: State)
    requires ShapeInv(s)
    ensures ShapeInv(AfterFlush(s))
  {
    ChunksPartitionQueue(s.queue);
    ValidOrInvalid(s.queue, Waiter(0, 0));
  }

  lemma {:induction false} StepKeepsShape(f: nat, s: State, a: Action)
    requires ShapeInv(s) && Enabled(f, s, a)
    ensures ShapeInv(Apply(f, s, a))
  {
    match a {
      case Flush(_) => FlushKeepsShape(s);
      case Return(_) => FlattenHead(s.batch.value.chunks);
      case FailFast => FlattenHead(s.batch.value.chunks);
      case _ =>
    }
  }

  /** Bounded memory: the driver's queue and its batch each hold at most half the stated
      capacity, and what callers have handed over but no batch has taken never exceeds it. */
  lemma {:induction false} CapacityHolds(f: nat, acts: seq<Action>)
    requires Exec(f, acts).Some?
    ensures var s := Exec(f, acts).value;
            ShapeInv(s) && |s.queue| <= 2048 && |BatchWaiters(s)| <= 2048 && |s.channel| + |s.queue| <= 4096
  {
    if acts != [] {
      CapacityHolds(f, acts[..|acts| - 1]);
      StepKeepsShape(f, Exec(f, acts[..|acts| - 1]).value, acts[|acts| - 1]);
    }
  }

  lemma {:induction false} Extended(f: nat, acts: seq<Action>, s: State, a: Action)
    requires Exec(f, acts) == Some(s) && Enabled(f, s, a)
    ensures Exec(f, acts + [a]) == Some(Apply(f, s, a))
  {
    assert (acts + [a])[..|acts|] == acts;
  }

  /** The bounds are reached: queue and channel can be filled to any lengths up to them. */
  lemma {:induction false} CapacityIsReached(f: nat, queued: nat, sent: nat) returns (acts: seq<Action>, s: State)
    requires queued <= 2048 && sent <= 2048
    ensures Exec(f, acts) == Some(s) && s.alive && s.batch.None? && |s.queue| == queued && |s.channel| == sent
    decreases 2 * queued + sent
  {
    if sent > 0 {
      acts, s := CapacityIsReached(f, queued, sent - 1);
      Extended(f, acts, s, Send(1));
      acts, s := acts + [Send(1)], AfterSend(s, 1);
    } else if queued > 0 {
      acts, s := CapacityIsReached(f, queued - 1, 1);
      Extended(f, acts, s, Receive(0));
      acts, s := acts + [Receive(0)], AfterReceive(s, 0);
    } else {
      acts, s := [], INITIAL;
    }
  }

  // ------------------------------------------------------------------
  // One failed RPC ends a batch's RPCs
  // ------------------------------------------------------------------

  ghost predicate FailFastInv(s: State) {
    && (forall r :: 0 <= r < |s.rpcs| ==> s.rpcs[r].batch <= s.batches)
    && (forall q, r :: 0 <= q < r < |s.rpcs| && s.rpcs[q].batch == s.rpcs[r].batch ==> Succeeded(s.rpcs[q]))
    && (s.batch.Some? && s.batch.value.failed.None? ==>
          forall r :: 0 <= r < |s.rpcs| && s.rpcs[r].batch == s.batches && !(s.batch.value.awaiting && r == |s.rpcs| - 1) ==>
            Succeeded(s.rpcs[r]))
    && (s.batch.Some? && s.batch.value.awaiting ==> s.rpcs != [] && s.rpcs[|s.rpcs| - 1].batch == s.batches)
  }

  lemma {:induction false} ReturnKeepsFailFast(s: State, result: RpcResult)
    requires FailFastInv(s) && Enabled(0, s, Return(result))
    ensures FailFastInv(AfterReturn(s, result))
  {
  }

  lemma {:induction false} IssueKeepsFailFast(s: State)
    requires FailFastInv(s) && Enabled(0, s, Issue)
    ensures FailFastInv(AfterIssue(s))
  {
  }

  lemma {:induction false} StepKeepsFailFast(f: nat, s: State, a: Action)
    requires FailFastInv(s) && Enabled(f, s, a)
    ensures FailFastInv(Apply(f, s, a))
  {
    match a {
      case Return(result) => ReturnKeepsFailFast(s, result);
      case Issue => IssueKeepsFailFast(s);
      case _ =>
    }
  }

  /** No RPC follows a failed or abandoned one in the same batch. */
  lemma {:induction false} NoRpcAfterFailure(f: nat, acts: seq<Action>)
    requires Exec(f, acts).Some?
    ensures FailFastInv(Exec(f, acts).value)
    ensures var rpcs := Exec(f, acts).value.rpcs;
            forall q, r :: 0 <= q < r < |rpcs| && rpcs[q].batch == rpcs[r].batch ==> Succeeded(rpcs[q])
  {
    if acts != [] {
      NoRpcAfterFailure(f, acts[..|acts| - 1]);
      StepKeepsFailFast(f, Exec(f, acts[..|acts| - 1]).value, acts[|acts| - 1]);
    }
  }

  // ------------------------------------------------------------------
  // Where a reply comes from
  // ------------------------------------------------------------------

  /** After a delivery a reply is either old or that of one waiter of the chunk. */
  lemma {:induction false} WhoseReply(s: State, result: RpcResult, rpc: nat, id: nat) returns (i: nat)
    requires FlowInv(s) && s.batch.Some? && s.batch.value.chunks != []
    requires id in Answer(s.replies, s.batch.value.chunks[0].waiters, Outcomes(s.batch.value.chunks[0], result, rpc))
    ensures var c := s.batch.value.chunks[0];
            var t := Answer(s.replies, c.waiters, Outcomes(c, result, rpc));
            && i <= |c.waiters|
            && (i == |c.waiters| <==> id in s.replies)
            && (i == |c.waiters| ==> t[id] == s.replies[id])
            && (i < |c.waiters| ==> id == c.waiters[i].id && t[id] == OutcomeOf(c, result, rpc, i))
  {
    var c := s.batch.value.chunks[0];
    DeliveredKeeps(s, result, rpc);
    AnswerKeys(s.replies, c.waiters, Outcomes(c, result, rpc));
    if id in s.replies {
      i := |c.waiters|;
    } else {
      i :| 0 <= i < |c.waiters| && c.waiters[i].id == id;
      HeadOfPending(s);
      SortedSplits(c.waiters, Flatten(s.batch.value.chunks[1..]) + s.queue + s.channel);
      AnswerAt(s.replies, c.waiters, Outcomes(c, result, rpc), i);
    }
  }

  predicate NoSlices(outs: seq<Outcome>) { forall i :: 0 <= i < |outs| ==> !outs[i].Slice? }

  /** Rejections and drops hand out no timestamps. */
  lemma {:induction false} NoNewSlices(replies: map<nat, Outcome>, ws: seq<Waiter>, outs: seq<Outcome>, id: nat)
    requires |outs| == |ws| && NoSlices(outs)
    requires id in Answer(replies, ws, outs) && Answer(replies, ws, outs)[id].Slice?
    ensures id in replies && replies[id] == Answer(replies, ws, outs)[id]
  {
    if ws != [] { NoNewSlices(replies, ws[..|ws| - 1], outs[..|ws| - 1], id); }
  }

  /** Steps other than a returning RPC hand out no timestamps either. */
  lemma {:induction false} SlicesComeFromReturns(f: nat, s: State, a: Action, id: nat)
    requires Enabled(f, s, a) && !a.Return?
    requires id in Apply(f, s, a).replies && Apply(f, s, a).replies[id].Slice?
    ensures id in s.replies && s.replies[id] == Apply(f, s, a).replies[id]
  {
    match a {
      case Flush(_) => NoNewSlices(s.replies, Invalid(s.queue), Rejections(Invalid(s.queue)), id);
      case FailFast =>
        var c := s.batch.value.chunks[0];
        NoNewSlices(s.replies, c.waiters, Outcomes(c, Failure(CloneError(s.batch.value.failed.value)), 0), id);
      case Panic => NoNewSlices(s.replies, BatchWaiters(s), Drops(BatchWaiters(s)), id);
      case Stop => NoNewSlices(s.replies, s.queue + s.channel, Drops(s.queue + s.channel), id);
      case _ =>
    }
  }

  // ------------------------------------------------------------------
  // Exact, consecutive and fresh slices
  // ------------------------------------------------------------------

  /** Waiters are received in acceptance order, and a batch holds only received ones. */
  ghost predicate ReceiptInv(s: State) {
    && (s.alive ==> |s.counts| == s.received + |s.channel|
                    && forall i :: 0 <= i < |s.channel| ==> s.channel[i].id == s.received + i)
    && Below(s.queue, s.received) && Below(BatchWaiters(s), s.received)
    && (s.batch.Some? && s.batch.value.awaiting ==>
          s.rpcs != [] && Below(BatchWaiters(s), s.rpcs[|s.rpcs| - 1].received))
  }

  lemma {:induction false} FlushKeepsReceipt(s: State)
    requires ReceiptInv(s)
    ensures ReceiptInv(AfterFlush(s))
  {
    ChunksPartitionQueue(s.queue);
    forall w | w in Valid(s.queue) ensures w in s.queue { ValidOrInvalid(s.queue, w); }
  }

  lemma {:induction false} DeliveredKeepsReceipt(s: State, result: RpcResult, rpc: nat, failed: Option<ClientError>)
    requires ReceiptInv(s) && s.batch.Some? && s.batch.value.chunks != []
    ensures ReceiptInv(Delivered(s, result, rpc, failed))
  {
    FlattenHead(s.batch.value.chunks);
  }

  lemma {:induction false} StepKeepsReceipt(f: nat, s: State, a: Action)
    requires ReceiptInv(s) && Enabled(f, s, a)
    ensures ReceiptInv(Apply(f, s, a))
  {
    match a {
      case Flush(_) => FlushKeepsReceipt(s);
      case Return(result) => DeliveredKeepsReceipt(s, result, |s.rpcs| - 1, FailedAfter(s.batch.value, result));
      case FailFast => DeliveredKeepsReceipt(s, Failure(CloneError(s.batch.value.failed.value)), 0, s.batch.value.failed);
      case _ =>
    }
  }

  /** Timestamps for `id` are its own count of consecutive values, taken from an RPC
      issued when `id` had already been received. */
  predicate GoodSlice(o: Outcome, id: nat, counts: seq<nat>, rpcs: seq<RpcRecord>) {
    o.Slice? ==>
      && id < |counts| && counts[id] >= 1
      && |o.timestamps| == counts[id] && o.timestamps == Consecutive(o.timestamps[0], counts[id])
      && o.rpc < |rpcs| && id < rpcs[o.rpc].received
  }

  predicate SliceOk(s: State, id: nat) { id in s.replies ==> GoodSlice(s.replies[id], id, s.counts, s.rpcs) }

  lemma {:induction false} HeadWaiter(s: State, i: nat)
    requires FlowInv(s) && ShapeInv(s) && ReceiptInv(s)
    requires s.batch.Some? && s.batch.value.awaiting && s.batch.value.chunks != [] && i < |s.batch.value.chunks[0].waiters|
    ensures var w := s.batch.value.chunks[0].waiters[i];
            && Servable(w) && w.id < |s.counts| && s.counts[w.id] == w.count
            && s.rpcs != [] && w.id < s.rpcs[|s.rpcs| - 1].received
  {
    var chunks := s.batch.value.chunks;
    AllServableAt(chunks[0].waiters, i);
    FlattenHead(chunks);
    assert chunks[0].waiters[i] in BatchWaiters(s);
    assert chunks[0].waiters[i] in Pending(s);
  }

  lemma {:induction false} NewSlice(s: State, result: RpcResult, i: nat)
    requires FlowInv(s) && ShapeInv(s) && ReceiptInv(s)
    requires s.batch.Some? && s.batch.value.awaiting && s.batch.value.chunks != [] && i < |s.batch.value.chunks[0].waiters|
    ensures s.rpcs != []
    ensures var c := s.batch.value.chunks[0];
            GoodSlice(OutcomeOf(c, result, |s.rpcs| - 1, i), c.waiters[i].id, s.counts, s.rpcs)
  {
    HeadWaiter(s, i);
    var c := s.batch.value.chunks[0];
    var o := OutcomeOf(c, result, |s.rpcs| - 1, i);
    if o.Slice? {
      assert o.timestamps[0] == First(result.value) + Sum(c.waiters[..i]);
    }
  }

  lemma {:induction false} DeliveredSlice(s: State, result: RpcResult, id: nat)
    requires FlowInv(s) && ShapeInv(s) && ReceiptInv(s) && SliceOk(s, id)
    requires Enabled(0, s, Return(result)) && id in AfterReturn(s, result).replies
    ensures GoodSlice(AfterReturn(s, result).replies[id], id, s.counts, s.rpcs)
  {
    var i := WhoseReply(s, result, |s.rpcs| - 1, id);
    if i < |s.batch.value.chunks[0].waiters| { NewSlice(s, result, i); }
  }

  lemma {:induction false} ResultIsIrrelevant(o: Outcome, id: nat, counts: seq<nat>, rpcs: seq<RpcRecord>, r: nat, result: RpcResult)
    requires GoodSlice(o, id, counts, rpcs) && r < |rpcs|
    ensures GoodSlice(o, id, counts, rpcs[r := rpcs[r].(result := Some(result))])
  {
  }

  lemma {:induction false} ReturnKeepsSlices(s: State, result: RpcResult, id: nat)
    requires FlowInv(s) && ShapeInv(s) && ReceiptInv(s) && SliceOk(s, id)
    requires Enabled(0, s, Return(result))
    ensures SliceOk(AfterReturn(s, result), id)
  {
    var t := AfterReturn(s, result);
    if id in t.replies {
      DeliveredSlice(s, result, id);
      ResultIsIrrelevant(t.replies[id], id, s.counts, s.rpcs, |s.rpcs| - 1, result);
    }
  }

  lemma {:induction false} StepKeepsSlices(f: nat, s: State, a: Action, id: nat)
    requires FlowInv(s) && ShapeInv(s) && ReceiptInv(s) && SliceOk(s, id) && Enabled(f, s, a)
    ensures SliceOk(Apply(f, s, a), id)
  {
    var t := Apply(f, s, a);
    if a.Return? {
      ReturnKeepsSlices(s, a.result, id);
    } else if id in t.replies && t.replies[id].Slice? {
      SlicesComeFromReturns(f, s, a, id);
    }
  }

  /** Every served waiter gets exactly what it asked for, as consecutive values, from an
      RPC issued after the driver had received it: never a stale timestamp. */
  lemma {:induction false} SlicesAreExactAndFresh(f: nat, acts: seq<Action>, id: nat)
    requires Exec(f, acts).Some?
    ensures ReceiptInv(Exec(f, acts).value) && SliceOk(Exec(f, acts).value, id)
  {
    if acts != [] {
      var before := acts[..|acts| - 1];
      SlicesAreExactAndFresh(f, before, id);
      RunKeepsFlow(f, before);
      CapacityHolds(f, before);
      StepKeepsReceipt(f, Exec(f, before).value, acts[|acts| - 1]);
      StepKeepsSlices(f, Exec(f, before).value, acts[|acts| - 1], id);
    }
  }

  // ------------------------------------------------------------------
  // Timestamps rise in acceptance order
  // ------------------------------------------------------------------

  /** Each returned range lies above everything returned before it. */
  predicate Rising(f: nat, acts: seq<Action>) {
    if acts == [] then true
    else
      var before := Exec(f, acts[..|acts| - 1]);
      var a := acts[|acts| - 1];
      && Rising(f, acts[..|acts| - 1])
      && (before.Some? && a.Return? && a.result.Success? ==> First(a.result.value) >= before.value.top)
  }

  predicate Served(s: State, id: nat) { id in s.replies && s.replies[id].Slice? && s.replies[id].timestamps != [] }

  function Lo(s: State, id: nat): int
    requires Served(s, id)
  {
    s.replies[id].timestamps[0]
  }

  function Hi(s: State, id: nat): int
    requires Served(s, id)
  {
    s.replies[id].timestamps[0] + |s.replies[id].timestamps|
  }

  ghost predicate ServedInv(s: State) {
    && (forall id: nat :: Served(s, id) ==> Hi(s, id) <= s.top)
    && (forall id: nat, w :: Served(s, id) && w in Pending(s) ==> id < w.id)
  }

  ghost predicate RisingInv(s: State) {
    forall i: nat, j: nat :: i < j && Served(s, i) && Served(s, j) ==> Hi(s, i) <= Lo(s, j)
  }

  /** The served waiters and what they hold are the same. */
  lemma {:induction false} ServedAreOld(f: nat, s: State, a: Action)
    requires Enabled(f, s, a) && FlowInv(s) && !a.Return?
    ensures forall id: nat :: Served(Apply(f, s, a), id) ==> Served(s, id) && s.replies[id] == Apply(f, s, a).replies[id]
  {
    forall id: nat | Served(Apply(f, s, a), id)
      ensures Served(s, id) && s.replies[id] == Apply(f, s, a).replies[id]
    {
      SlicesComeFromReturns(f, s, a, id);
    }
  }

  /** Who waits after a step was waiting before it, or has just been accepted. */
  lemma {:induction false} PendingAreOld(f: nat, s: State, a: Action, w: Waiter)
    requires Enabled(f, s, a) && w in Pending(Apply(f, s, a))
    ensures w in Pending(s) || (a.Send? && w.id == |s.counts|)
  {
    match a {
      case Flush(_) =>
        ChunksPartitionQueue(s.queue);
        FlushPending(s, ChunksOf(s.queue), Invalid(s.queue));
        ValidOrInvalid(s.queue, w);
      case Return(_) => HeadOfPending(s);
      case FailFast => HeadOfPending(s);
      case _ =>
    }
  }

  lemma {:induction false} ServedBeforePending(f: nat, s: State, a: Action, id: nat, w: Waiter)
    requires Enabled(f, s, a) && FlowInv(s) && ServedInv(s) && Served(s, id) && w in Pending(Apply(f, s, a))
    ensures id < w.id
  {
    PendingAreOld(f, s, a, w);
    UpToHas(|s.counts|, id);
    assert id in s.replies.Keys + Ids(Pending(s));
  }

  lemma {:induction false} OtherStepKeepsRising(f: nat, s: State, a: Action)
    requires Enabled(f, s, a) && !a.Return? && FlowInv(s) && ServedInv(s) && RisingInv(s)
    ensures ServedInv(Apply(f, s, a)) && RisingInv(Apply(f, s, a))
  {
    var t := Apply(f, s, a);
    ServedAreOld(f, s, a);
    assert t.top == s.top;
    forall id: nat, w | Served(t, id) && w in Pending(t)
      ensures id < w.id
    {
      ServedBeforePending(f, s, a, id, w);
    }
  }

  /** What a returning RPC may have handed to `id`. */
  lemma {:induction false} ReturnServes(s: State, result: RpcResult, id: nat) returns (i: nat)
    requires FlowInv(s) && ShapeInv(s) && Enabled(0, s, Return(result)) && Served(AfterReturn(s, result), id)
    ensures var c := s.batch.value.chunks[0];
            var t := AfterReturn(s, result);
            && i <= |c.waiters|
            && (i == |c.waiters| ==> Served(s, id) && Lo(t, id) == Lo(s, id) && Hi(t, id) == Hi(s, id))
            && (i < |c.waiters| ==>
                  && id == c.waiters[i].id && result.Success?
                  && Lo(t, id) == First(result.value) + Sum(c.waiters[..i])
                  && Hi(t, id) == Lo(t, id) + c.waiters[i].count <= t.top)
  {
    var c := s.batch.value.chunks[0];
    i := WhoseReply(s, result, |s.rpcs| - 1, id);
    if i < |c.waiters| {
      AllServableAt(c.waiters, i);
      SlicesFollow(c, i, i + 1);
    }
  }

  /** The chunk's waiters are older than those left. */
  lemma {:induction false} HeadIsOldest(s: State, result: RpcResult, i: nat, w: Waiter)
    requires FlowInv(s) && Enabled(0, s, Return(result)) && i < |s.batch.value.chunks[0].waiters|
    requires w in Pending(AfterReturn(s, result))
    ensures s.batch.value.chunks[0].waiters[i].id < w.id
  {
    HeadOfPending(s);
    SortedSplits(s.batch.value.chunks[0].waiters, Pending(AfterReturn(s, result)));
    assert s.batch.value.chunks[0].waiters[i] in s.batch.value.chunks[0].waiters;
  }

  lemma {:induction false} ReturnKeepsServed(s: State, result: RpcResult, id: nat)
    requires FlowInv(s) && ShapeInv(s) && ServedInv(s) && Enabled(0, s, Return(result))
    requires result.Success? ==> First(result.value) >= s.top
    requires Served(AfterReturn(s, result), id)
    ensures Hi(AfterReturn(s, result), id) <= AfterReturn(s, result).top
    ensures forall w :: w in Pending(AfterReturn(s, result)) ==> id < w.id
  {
    var i := ReturnServes(s, result, id);
    forall w | w in Pending(AfterReturn(s, result))
      ensures id < w.id
    {
      if i < |s.batch.value.chunks[0].waiters| {
        HeadIsOldest(s, result, i, w);
      } else {
        PendingAreOld(0, s, Return(result), w);
      }
    }
  }

  lemma {:induction false} ChunkIsSorted(s: State, i: nat, j: nat)
    requires FlowInv(s) && s.batch.Some? && s.batch.value.chunks != []
    requires i < |s.batch.value.chunks[0].waiters| && j < |s.batch.value.chunks[0].waiters|
    requires s.batch.value.chunks[0].waiters[i].id < s.batch.value.chunks[0].waiters[j].id
    ensures i < j
  {
    var ws := s.batch.value.chunks[0].waiters;
    assert Sorted(ws) by {
      HeadOfPending(s);
      SortedSplits(ws, Flatten(s.batch.value.chunks[1..]) + s.queue + s.channel);
    }
    PlaceOrder(ws, i, j);
  }

  lemma {:induction false} PlaceOrder(ws: seq<Waiter>, i: nat, j: nat)
    requires Sorted(ws) && i < |ws| && j < |ws| && ws[i].id < ws[j].id
    ensures i < j
  {
  }

  lemma {:induction false} ChunkIsNewer(s: State, i: nat, id: nat)
    requires ServedInv(s) && s.batch.Some? && s.batch.value.chunks != [] && i < |s.batch.value.chunks[0].waiters|
    requires Served(s, id)
    ensures id < s.batch.value.chunks[0].waiters[i].id
  {
    HeadOfPending(s);
    assert s.batch.value.chunks[0].waiters[i] in Pending(s);
  }

  lemma {:induction false} ReturnKeepsRising(s: State, result: RpcResult, id: nat, jd: nat)
    requires FlowInv(s) && ShapeInv(s) && ServedInv(s) && RisingInv(s) && Enabled(0, s, Return(result))
    requires result.Success? ==> First(result.value) >= s.top
    requires id < jd && Served(AfterReturn(s, result), id) && Served(AfterReturn(s, result), jd)
    ensures Hi(AfterReturn(s, result), id) <= Lo(AfterReturn(s, result), jd)
  {
    var c := s.batch.value.chunks[0];
    var i := ReturnServes(s, result, id);
    var j := ReturnServes(s, result, jd);
    assert i < |c.waiters| ==> j < |c.waiters| by {
      if i < |c.waiters| && Served(s, jd) { ChunkIsNewer(s, i, jd); }
    }
    if i < |c.waiters| {
      ChunkIsSorted(s, i, j);
      SlicesFollow(c, i, j);
    }
  }

  lemma {:induction false} RunKeepsRising(f: nat, acts: seq<Action>)
    requires Exec(f, acts).Some? && Rising(f, acts)
    ensures ServedInv(Exec(f, acts).value) && RisingInv(Exec(f, acts).value)
  {
    if acts != [] {
      var before, a := acts[..|acts| - 1], acts[|acts| - 1];
      RunKeepsRising(f, before);
      RunKeepsFlow(f, before);
      CapacityHolds(f, before);
      var s := Exec(f, before).value;
      if a.Return? {
        var t := AfterReturn(s, a.result);
        forall i: nat | Served(t, i) ensures Hi(t, i) <= t.top && forall w :: w in Pending(t) ==> i < w.id {
          ReturnKeepsServed(s, a.result, i);
        }
        forall i: nat, j: nat | i < j && Served(t, i) && Served(t, j) ensures Hi(t, i) <= Lo(t, j) {
          ReturnKeepsRising(s, a.result, i, j);
        }
      } else {
        OtherStepKeepsRising(f, s, a);
      }
    }
  }

  /** Read in acceptance order, the timestamps a driver delivers never repeat or fall,
      provided the server's ranges rise from RPC to RPC. */
  lemma {:induction false} DeliveredTimestampsRise(f: nat, acts: seq<Action>, i: nat, j: nat, p: nat, q: nat)
    requires Exec(f, acts).Some? && Rising(f, acts)
    requires Served(Exec(f, acts).value, i) && Served(Exec(f, acts).value, j)
    requires p < |Exec(f, acts).value.replies[i].timestamps| && q < |Exec(f, acts).value.replies[j].timestamps|
    requires i < j || (i == j && p < q)
    ensures Exec(f, acts).value.replies[i].timestamps[p] < Exec(f, acts).value.replies[j].timestamps[q]
  {
    var s := Exec(f, acts).value;
    RunKeepsRising(f, acts);
    SlicesAreExactAndFresh(f, acts, i);
    SlicesAreExactAndFresh(f, acts, j);
    assert s.replies[i].timestamps[p] == Lo(s, i) + p;
    assert s.replies[j].timestamps[q] == Lo(s, j) + q;
  }
}
