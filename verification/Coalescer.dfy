/** The client's coalescing driver as a state machine: callers send waiters into a bounded
    channel, the driver task moves them into its queue, and one batch task at a time turns
    the queue into RPCs.  A run is any interleaving of those steps. */
module Coalescer {
  import opened Wrappers
  import opened ClientTypes
  import opened Timestamps
  import opened Chunking

  const QUEUE_CAPACITY: nat := 4096
  const HALF: nat := QUEUE_CAPACITY / 2

  /** One RPC: the batch it belongs to, how many waiters the driver had received when it was
      issued, how many timestamps it asks for, and what came back. */
  datatype RpcRecord = RpcRecord(batch: nat, received: nat, total: nat, result: Option<RpcResult>)

  predicate Succeeded(r: RpcRecord) { r.result.Some? && r.result.value.Success? }

  /** The batch task: chunks not yet delivered, the failure that ended its RPCs, and
      whether the first chunk's RPC is on the wire. */
  datatype Batch = Batch(chunks: seq<Chunk>, failed: Option<ClientError>, awaiting: bool)

  /** `counts` lists every accepted waiter in acceptance order.  `received`, `rpcs`,
      `batches` and `top`, the end of the latest range, are history. */
  datatype State = State(
    counts: seq<nat>, received: nat, channel: seq<Waiter>, queue: seq<Waiter>, firstArrival: Option<nat>,
    batch: Option<Batch>, replies: map<nat, Outcome>, rpcs: seq<RpcRecord>, batches: nat, top: int, alive: bool)

  const INITIAL := State([], 0, [], [], None, None, map[], [], 0, 0, true)

  datatype Action =
    | Send(count: nat)
    | Receive(now: nat)
    | Flush(now: nat)
    | Issue
    | Return(result: RpcResult)
    | FailFast
    | Join
    | Panic
    | Stop

  /** `flushInterval` is how long the first waiter of a queue may wait for company. */
  predicate Enabled(flushInterval: nat, s: State, a: Action) {
    match a
    case Send(_) => s.alive && |s.channel| < HALF
    case Receive(_) => s.alive && s.channel != [] && |s.queue| < HALF
    case Flush(now) =>
      && s.alive && s.batch.None? && s.queue != []
      && (flushInterval > 0 && s.firstArrival.Some? ==> now >= s.firstArrival.value + flushInterval)
    case Issue =>
      s.batch.Some? && s.batch.value.chunks != [] && s.batch.value.failed.None? && !s.batch.value.awaiting
    case Return(result) =>
      && s.batch.Some? && s.batch.value.chunks != [] && s.batch.value.awaiting && s.rpcs != []
      && (result.Success? ==> ValidRange(result.value))
    case FailFast => s.batch.Some? && s.batch.value.chunks != [] && s.batch.value.failed.Some?
    case Join => s.batch.Some? && s.batch.value.chunks == []
    case Panic => s.batch.Some?
    case Stop => s.alive
  }

  /** Record the outcomes of `ws`, in order. */
  function Answer(replies: map<nat, Outcome>, ws: seq<Waiter>, outs: seq<Outcome>): map<nat, Outcome>
    requires |outs| == |ws|
  {
    if ws == [] then replies
    else
      var n := |ws| - 1;
      Answer(replies, ws[..n], outs[..n])[ws[n].id := outs[n]]
  }

  function Rejections(ws: seq<Waiter>): seq<Outcome> {
    seq(|ws|, i requires 0 <= i < |ws| => Failed(ClientError.InvalidCount(ws[i].count)))
  }

  function Drops(ws: seq<Waiter>): seq<Outcome> { seq(|ws|, _ => Dropped) }

  function BatchWaiters(s: State): seq<Waiter> {
    if s.batch.Some? then Flatten(s.batch.value.chunks) else []
  }

  function AfterSend(s: State, count: nat): State {
    s.(counts := s.counts + [count], channel := s.channel + [Waiter(|s.counts|, count)])
  }

  function AfterReceive(s: State, now: nat): State
    requires s.channel != []
  {
    s.(channel := s.channel[1..], queue := s.queue + [s.channel[0]], received := s.received + 1,
       firstArrival := if s.firstArrival.None? then Some(now) else s.firstArrival)
  }

  function NewBatch(chunks: seq<Chunk>): Option<Batch> {
    if chunks == [] then None else Some(Batch(chunks, None, false))
  }

  /** The queue becomes a batch of `chunks` and a list of rejections. */
  function FlushInto(s: State, chunks: seq<Chunk>, rejected: seq<Waiter>): State {
    s.(queue := [], firstArrival := None, batches := s.batches + 1,
       replies := Answer(s.replies, rejected, Rejections(rejected)), batch := NewBatch(chunks))
  }

  function AfterFlush(s: State): State { FlushInto(s, ChunksOf(s.queue), Invalid(s.queue)) }

  function AfterIssue(s: State): State
    requires s.batch.Some? && s.batch.value.chunks != []
  {
    s.(batch := Some(s.batch.value.(awaiting := true)),
       rpcs := s.rpcs + [RpcRecord(s.batches, s.received, s.batch.value.chunks[0].total, None)])
  }

  /** Hand `result` to the first chunk and move on. */
  function Delivered(s: State, result: RpcResult, rpc: nat, failed: Option<ClientError>): State
    requires s.batch.Some? && s.batch.value.chunks != []
  {
    var c := s.batch.value.chunks[0];
    s.(batch := Some(Batch(s.batch.value.chunks[1..], failed, false)),
       replies := Answer(s.replies, c.waiters, Outcomes(c, result, rpc)))
  }

  function FailedAfter(b: Batch, result: RpcResult): Option<ClientError> {
    if result.Failure? then Some(CloneError(result.error)) else b.failed
  }

  function AfterReturn(s: State, result: RpcResult): State
    requires s.batch.Some? && s.batch.value.chunks != [] && s.rpcs != []
  {
    var r := |s.rpcs| - 1;
    Delivered(s, result, r, FailedAfter(s.batch.value, result))
    .(rpcs := s.rpcs[r := s.rpcs[r].(result := Some(result))],
      top := if result.Success? then First(result.value) + result.value.count else s.top)
  }

  function AfterFailFast(s: State): State
    requires s.batch.Some? && s.batch.value.chunks != [] && s.batch.value.failed.Some?
  {
    Delivered(s, Failure(CloneError(s.batch.value.failed.value)), 0, s.batch.value.failed)
  }

  /** The batch task unwinds; the senders it still held are dropped. */
  function AfterPanic(s: State): State {
    s.(batch := None, replies := Answer(s.replies, BatchWaiters(s), Drops(BatchWaiters(s))))
  }

  /** The driver task ends; a batch in flight carries on without it. */
  function AfterStop(s: State): State {
    s.(alive := false, queue := [], channel := [], firstArrival := None,
       replies := Answer(s.replies, s.queue + s.channel, Drops(s.queue + s.channel)))
  }

  function Apply(flushInterval: nat, s: State, a: Action): State
    requires Enabled(flushInterval, s, a)
  {
    match a
    case Send(count) => AfterSend(s, count)
    case Receive(now) => AfterReceive(s, now)
    case Flush(_) => AfterFlush(s)
    case Issue => AfterIssue(s)
    case Return(result) => AfterReturn(s, result)
    case FailFast => AfterFailFast(s)
    case Join => s.(batch := None)
    case Panic => AfterPanic(s)
    case Stop => AfterStop(s)
  }

  function Exec(flushInterval: nat, acts: seq<Action>): Option<State> {
    if acts == [] then Some(INITIAL)
    else
      var before := Exec(flushInterval, acts[..|acts| - 1]);
      var a := acts[|acts| - 1];
      if before.Some? && Enabled(flushInterval, before.value, a) then Some(Apply(flushInterval, before.value, a)) else None
  }

  // ------------------------------------------------------------------
  // Waiter lists
  // ------------------------------------------------------------------

  function Ids(ws: seq<Waiter>): set<nat> { set w | w in ws :: w.id }

  predicate Sorted(ws: seq<Waiter>) {
    forall i, j :: 0 <= i < j < |ws| ==> ws[i].id < ws[j].id
  }

  predicate Below(ws: seq<Waiter>, bound: nat) { forall w :: w in ws ==> w.id < bound }

  lemma {:induction false} SortedSplits(a: seq<Waiter>, b: seq<Waiter>)
    requires Sorted(a + b)
    ensures Sorted(a) && Sorted(b) && Ids(a) !! Ids(b) && Ids(a + b) == Ids(a) + Ids(b)
    ensures forall w, x :: w in a && x in b ==> w.id < x.id
  {
    forall i, j | 0 <= i < j < |a| ensures a[i].id < a[j].id { assert (a + b)[i].id < (a + b)[j].id; }
    forall i, j | 0 <= i < j < |b| ensures b[i].id < b[j].id { assert (a + b)[|a| + i].id < (a + b)[|a| + j].id; }
    forall w, x | w in a && x in b
      ensures w.id < x.id
    {
      var i :| 0 <= i < |a| && a[i] == w;
      var j :| 0 <= j < |b| && b[j] == x;
      assert (a + b)[i].id < (a + b)[|a| + j].id;
    }
  }

  lemma {:induction false} SortedJoins(a: seq<Waiter>, b: seq<Waiter>)
    requires Sorted(a) && Sorted(b) && forall w, x :: w in a && x in b ==> w.id < x.id
    ensures Sorted(a + b)
  {
    forall i, j | 0 <= i < j < |a + b|
      ensures (a + b)[i].id < (a + b)[j].id
    {
      if i < |a| <= j { assert a[i] in a && b[j - |a|] in b; }
    }
  }

  lemma {:induction false} ValidStaysSorted(ws: seq<Waiter>)
    requires Sorted(ws)
    ensures Sorted(Valid(ws)) && Ids(Valid(ws)) !! Ids(Invalid(ws)) && Ids(Valid(ws)) + Ids(Invalid(ws)) == Ids(ws)
  {
    if ws != [] {
      var n := |ws| - 1;
      assert ws == ws[..n] + [ws[n]];
      SortedSplits(ws[..n], [ws[n]]);
      ValidStaysSorted(ws[..n]);
      forall w | w in Valid(ws[..n]) ensures w.id < ws[n].id { ValidOrInvalid(ws[..n], w); }
      SortedJoins(Valid(ws[..n]), [ws[n]]);
      IdsAppend(ws[..n], ws[n]);
      IdsAppend(Valid(ws[..n]), ws[n]);
      IdsAppend(Invalid(ws[..n]), ws[n]);
    }
  }

  lemma {:induction false} IdsAppend(ws: seq<Waiter>, w: Waiter)
    ensures Ids(ws + [w]) == Ids(ws) + {w.id}
  {
  }

  /** Answering touches the answered waiters and no one else. */
  lemma {:induction false} AnswerKeys(replies: map<nat, Outcome>, ws: seq<Waiter>, outs: seq<Outcome>)
    requires |outs| == |ws|
    ensures Answer(replies, ws, outs).Keys == replies.Keys + Ids(ws)
    ensures forall id :: id in replies && id !in Ids(ws) ==> Answer(replies, ws, outs)[id] == replies[id]
  {
    if ws != [] {
      var n := |ws| - 1;
      AnswerKeys(replies, ws[..n], outs[..n]);
      assert ws == ws[..n] + [ws[n]];
      IdsAppend(ws[..n], ws[n]);
    }
  }

  /** The `i`-th waiter hears the `i`-th outcome. */
  lemma {:induction false} AnswerAt(replies: map<nat, Outcome>, ws: seq<Waiter>, outs: seq<Outcome>, i: nat)
    requires |outs| == |ws| && Sorted(ws) && i < |ws|
    ensures ws[i].id in Answer(replies, ws, outs) && Answer(replies, ws, outs)[ws[i].id] == outs[i]
  {
    var n := |ws| - 1;
    if i < n { AnswerAt(replies, ws[..n], outs[..n], i); }
  }

  // ------------------------------------------------------------------
  // Every accepted waiter is waiting or answered, never both
  // ------------------------------------------------------------------

  /** Everyone still waiting, oldest first. */
  function Pending(s: State): seq<Waiter> { BatchWaiters(s) + s.queue + s.channel }

  function UpTo(n: nat): set<nat> { if n == 0 then {} else UpTo(n - 1) + {n - 1} }

  lemma {:induction false} UpToHas(n: nat, id: nat)
    ensures id in UpTo(n) <==> id < n
  {
    if n > 0 { UpToHas(n - 1, id); }
  }

  ghost predicate Known(counts: seq<nat>, ws: seq<Waiter>) {
    forall w :: w in ws ==> w.id < |counts| && counts[w.id] == w.count
  }

  /** The answered and the waiting partition the accepted. */
  ghost predicate Flow(counts: seq<nat>, replies: map<nat, Outcome>, pending: seq<Waiter>) {
    && Sorted(pending) && Known(counts, pending)
    && replies.Keys !! Ids(pending)
    && replies.Keys + Ids(pending) == UpTo(|counts|)
  }

  ghost predicate FlowInv(s: State) { Flow(s.counts, s.replies, Pending(s)) }

  /** A newcomer joins at the back. */
  lemma {:induction false} NewcomerJoins(counts: seq<nat>, replies: map<nat, Outcome>, pending: seq<Waiter>, count: nat)
    requires Flow(counts, replies, pending)
    ensures Flow(counts + [count], replies, pending + [Waiter(|counts|, count)])
  {
    var w := Waiter(|counts|, count);
    SortedJoins(pending, [w]);
    IdsAppend(pending, w);
    UpToHas(|counts|, w.id);
  }

  /** Answering `gone` leaves `left`. */
  lemma {:induction false} Settle(counts: seq<nat>, replies: map<nat, Outcome>, pending: seq<Waiter>,
                                  gone: seq<Waiter>, outs: seq<Outcome>, left: seq<Waiter>)
    requires Flow(counts, replies, pending) && |outs| == |gone|
    requires Sorted(left) && forall w :: w in left ==> w in pending
    requires Ids(gone) !! Ids(left) && Ids(gone) + Ids(left) == Ids(pending)
    ensures Flow(counts, Answer(replies, gone, outs), left)
  {
    AnswerKeys(replies, gone, outs);
  }

  lemma {:induction false} SettleFront(counts: seq<nat>, replies: map<nat, Outcome>, gone: seq<Waiter>, outs: seq<Outcome>, left: seq<Waiter>)
    requires Flow(counts, replies, gone + left) && |outs| == |gone|
    ensures Flow(counts, Answer(replies, gone, outs), left)
  {
    SortedSplits(gone, left);
    Settle(counts, replies, gone + left, gone, outs, left);
  }

  lemma {:induction false} SettleBack(counts: seq<nat>, replies: map<nat, Outcome>, left: seq<Waiter>, gone: seq<Waiter>, outs: seq<Outcome>)
    requires Flow(counts, replies, left + gone) && |outs| == |gone|
    ensures Flow(counts, Answer(replies, gone, outs), left)
  {
    SortedSplits(left, gone);
    Settle(counts, replies, left + gone, gone, outs, left);
  }

  lemma {:induction false} SendKeepsFlow(s: State, count: nat)
    requires FlowInv(s)
    ensures FlowInv(AfterSend(s, count))
  {
    NewcomerJoins(s.counts, s.replies, Pending(s), count);
    assert Pending(AfterSend(s, count)) == Pending(s) + [Waiter(|s.counts|, count)];
  }

  lemma {:induction false} ReceiveKeepsFlow(s: State, now: nat)
    requires FlowInv(s) && s.channel != []
    ensures FlowInv(AfterReceive(s, now))
  {
    assert Pending(AfterReceive(s, now)) == Pending(s);
  }

  /** Filtering the front of a sorted list. */
  lemma {:induction false} FilterFront(q: seq<Waiter>, rest: seq<Waiter>)
    requires Sorted(q + rest)
    ensures Sorted(Valid(q) + rest) && forall w :: w in Valid(q) + rest ==> w in q + rest
    ensures Ids(Invalid(q)) !! Ids(Valid(q) + rest) && Ids(Invalid(q)) + Ids(Valid(q) + rest) == Ids(q + rest)
  {
    SortedSplits(q, rest);
    ValidStaysSorted(q);
    forall w | w in Valid(q) ensures w in q { ValidOrInvalid(q, w); }
    SortedJoins(Valid(q), rest);
    SortedSplits(Valid(q), rest);
  }

  lemma {:induction false} SettleInvalid(counts: seq<nat>, replies: map<nat, Outcome>, q: seq<Waiter>, rest: seq<Waiter>)
    requires Flow(counts, replies, q + rest)
    ensures Flow(counts, Answer(replies, Invalid(q), Rejections(Invalid(q))), Valid(q) + rest)
  {
    FilterFront(q, rest);
    Settle(counts, replies, q + rest, Invalid(q), Rejections(Invalid(q)), Valid(q) + rest);
  }

  lemma {:induction false} FlushPending(s: State, chunks: seq<Chunk>, rejected: seq<Waiter>)
    ensures Pending(FlushInto(s, chunks, rejected)) == Flatten(chunks) + s.channel
  {
    var t := FlushInto(s, chunks, rejected);
    assert BatchWaiters(t) == Flatten(chunks);
    assert Flatten(chunks) + [] == Flatten(chunks);
  }

  lemma {:induction false} FlushKeepsFlow(s: State)
    requires FlowInv(s) && s.batch.None?
    ensures FlowInv(AfterFlush(s))
  {
    assert Pending(s) == s.queue + s.channel;
    SettleInvalid(s.counts, s.replies, s.queue, s.channel);
    ChunksPartitionQueue(s.queue);
    FlushPending(s, ChunksOf(s.queue), Invalid(s.queue));
  }

  lemma {:induction false} HeadOfPending(s: State)
    requires s.batch.Some? && s.batch.value.chunks != []
    ensures Pending(s) == s.batch.value.chunks[0].waiters + (Flatten(s.batch.value.chunks[1..]) + s.queue + s.channel)
  {
    FlattenHead(s.batch.value.chunks);
  }

  lemma {:induction false} DeliveredKeepsFlow(s: State, result: RpcResult, rpc: nat, failed: Option<ClientError>)
    requires FlowInv(s) && s.batch.Some? && s.batch.value.chunks != []
    ensures FlowInv(Delivered(s, result, rpc, failed))
  {
    var c := s.batch.value.chunks[0];
    HeadOfPending(s);
    SettleFront(s.counts, s.replies, c.waiters, Outcomes(c, result, rpc), Pending(Delivered(s, result, rpc, failed)));
  }

  lemma {:induction false} PanicKeepsFlow(s: State)
    requires FlowInv(s)
    ensures FlowInv(AfterPanic(s))
  {
    var gone, left := BatchWaiters(s), Pending(AfterPanic(s));
    assert Pending(s) == gone + left;
    SettleFront(s.counts, s.replies, gone, Drops(gone), left);
  }

  lemma {:induction false} StopKeepsFlow(s: State)
    requires FlowInv(s)
    ensures FlowInv(AfterStop(s))
  {
    var left, gone := Pending(AfterStop(s)), s.queue + s.channel;
    assert Pending(s) == left + gone;
    SettleBack(s.counts, s.replies, left, gone, Drops(gone));
  }

  lemma {:induction false} StepKeepsFlow(f: nat, s: State, a: Action)
    requires FlowInv(s) && Enabled(f, s, a)
    ensures FlowInv(Apply(f, s, a))
  {
    match a
    case Send(count) => SendKeepsFlow(s, count);
    case Receive(now) => ReceiveKeepsFlow(s, now);
    case Flush(_) => FlushKeepsFlow(s);
    case Issue =>
    case Return(result) =>
      DeliveredKeepsFlow(s, result, |s.rpcs| - 1, FailedAfter(s.batch.value, result));
    case FailFast => DeliveredKeepsFlow(s, Failure(CloneError(s.batch.value.failed.value)), 0, s.batch.value.failed);
    case Join =>
    case Panic => PanicKeepsFlow(s);
    case Stop => StopKeepsFlow(s);
  }

  lemma {:induction false} RunKeepsFlow(f: nat, acts: seq<Action>)
    requires Exec(f, acts).Some?
    ensures FlowInv(Exec(f, acts).value)
  {
    if acts != [] {
      RunKeepsFlow(f, acts[..|acts| - 1]);
      StepKeepsFlow(f, Exec(f, acts[..|acts| - 1]).value, acts[|acts| - 1]);
    }
  }
}
