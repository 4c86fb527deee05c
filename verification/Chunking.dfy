/** How the client's coalescing driver cuts its queue into RPCs and hands one RPC's
    range back to the waiters it was asked for. */
module Chunking {
  import opened Wrappers
  import opened ClientTypes
  import opened Timestamps

  /** A caller blocked on `count` timestamps; `id` is its place in acceptance order. */
  datatype Waiter = Waiter(id: nat, count: nat)

  datatype Chunk = Chunk(total: nat, waiters: seq<Waiter>)

  /** What a waiter hears: its timestamps and the RPC they came from, an error, or
      nothing because its sender was dropped. */
  datatype Outcome =
    | Slice(timestamps: seq<int>, rpc: nat)
    | Failed(error: ClientError)
    | Dropped

  type RpcResult = Result<TimestampRange, ClientError>

  predicate Servable(w: Waiter) { 1 <= w.count <= MAX_TIMESTAMPS_PER_RPC }

  predicate AllServable(ws: seq<Waiter>) {
    if ws == [] then true else Servable(ws[|ws| - 1]) && AllServable(ws[..|ws| - 1])
  }

  lemma {:induction false} AllServableAt(ws: seq<Waiter>, i: nat)
    requires AllServable(ws) && i < |ws|
    ensures Servable(ws[i])
  {
    if i < |ws| - 1 { AllServableAt(ws[..|ws| - 1], i); }
  }

  function Sum(ws: seq<Waiter>): nat {
    if ws == [] then 0 else Sum(ws[..|ws| - 1]) + ws[|ws| - 1].count
  }

  /** The waiters that can be served, in order. */
  function Valid(ws: seq<Waiter>): seq<Waiter> {
    if ws == [] then []
    else
      var n := |ws| - 1;
      if Servable(ws[n]) then Valid(ws[..n]) + [ws[n]] else Valid(ws[..n])
  }

  /** The waiters that never can, in order. */
  function Invalid(ws: seq<Waiter>): seq<Waiter> {
    if ws == [] then []
    else
      var n := |ws| - 1;
      if Servable(ws[n]) then Invalid(ws[..n]) else Invalid(ws[..n]) + [ws[n]]
  }

  // ------------------------------------------------------------------
  // Cutting the queue
  // ------------------------------------------------------------------

  /** Finished chunks and the one being filled. */
  datatype Cut = Cut(closed: seq<Chunk>, open: Chunk)

  const NO_CHUNK := Chunk(0, [])

  function Place(cut: Cut, w: Waiter): Cut {
    if cut.open.total + w.count <= MAX_TIMESTAMPS_PER_RPC then
      Cut(cut.closed, Chunk(cut.open.total + w.count, cut.open.waiters + [w]))
    else
      Cut(Close(cut), Chunk(w.count, [w]))
  }

  function Close(cut: Cut): seq<Chunk> {
    if cut.open.waiters == [] then cut.closed else cut.closed + [cut.open]
  }

  function CutOf(valid: seq<Waiter>): Cut {
    if valid == [] then Cut([], NO_CHUNK)
    else Place(CutOf(valid[..|valid| - 1]), valid[|valid| - 1])
  }

  function ChunksOf(queue: seq<Waiter>): seq<Chunk> { Close(CutOf(Valid(queue))) }

  function Flatten(chunks: seq<Chunk>): seq<Waiter> {
    if chunks == [] then [] else Flatten(chunks[..|chunks| - 1]) + chunks[|chunks| - 1].waiters
  }

  /** A chunk the server will accept, whose stored total is the truth. */
  predicate ChunkOk(c: Chunk) {
    && c.waiters != [] && AllServable(c.waiters)
    && c.total == Sum(c.waiters) && c.total <= MAX_TIMESTAMPS_PER_RPC
  }

  predicate ChunksOk(chunks: seq<Chunk>) { forall i :: 0 <= i < |chunks| ==> ChunkOk(chunks[i]) }

  lemma {:induction false} FlattenAppend(chunks: seq<Chunk>, c: Chunk)
    ensures Flatten(chunks + [c]) == Flatten(chunks) + c.waiters
  {
    assert (chunks + [c])[..|chunks|] == chunks;
  }

  lemma {:induction false} FlattenHead(chunks: seq<Chunk>)
    requires chunks != []
    ensures Flatten(chunks) == chunks[0].waiters + Flatten(chunks[1..])
  {
    var n := |chunks| - 1;
    if n > 0 {
      FlattenHead(chunks[..n]);
      assert chunks[..n][1..] == chunks[1..][..n - 1];
      Associative(chunks[0].waiters, Flatten(chunks[1..][..n - 1]), chunks[n].waiters);
    }
  }

  lemma {:induction false} SumAppend(ws: seq<Waiter>, w: Waiter)
    ensures Sum(ws + [w]) == Sum(ws) + w.count
  {
    assert (ws + [w])[..|ws|] == ws;
  }

  predicate CutOk(cut: Cut) {
    && ChunksOk(cut.closed)
    && (cut.open == NO_CHUNK || ChunkOk(cut.open))
  }

  lemma {:induction false} ChunkGrows(c: Chunk, w: Waiter)
    requires c == NO_CHUNK || ChunkOk(c)
    requires Servable(w) && c.total + w.count <= MAX_TIMESTAMPS_PER_RPC
    ensures ChunkOk(Chunk(c.total + w.count, c.waiters + [w]))
  {
    SumAppend(c.waiters, w);
    assert (c.waiters + [w])[..|c.waiters|] == c.waiters;
  }

  lemma {:induction false} ChunkOfOne(w: Waiter)
    requires Servable(w)
    ensures ChunkOk(Chunk(w.count, [w]))
  {
    assert [w][..0] == [];
  }

  lemma {:induction false} CloseIsOk(cut: Cut)
    requires CutOk(cut)
    ensures ChunksOk(Close(cut))
  {
  }

  lemma {:induction false} PlaceIsOk(cut: Cut, w: Waiter)
    requires CutOk(cut) && Servable(w)
    ensures CutOk(Place(cut, w)) && ChunkOk(Place(cut, w).open)
  {
    CloseIsOk(cut);
    ChunkOfOne(w);
    if cut.open.total + w.count <= MAX_TIMESTAMPS_PER_RPC { ChunkGrows(cut.open, w); }
  }

  function WaitersOf(cut: Cut): seq<Waiter> { Flatten(cut.closed) + cut.open.waiters }

  lemma {:induction false} ClosedWaiters(cut: Cut)
    ensures Flatten(Close(cut)) == WaitersOf(cut)
  {
    FlattenAppend(cut.closed, cut.open);
  }

  lemma {:induction false} PlaceAppends(cut: Cut, w: Waiter)
    ensures WaitersOf(Place(cut, w)) == WaitersOf(cut) + [w]
  {
    ClosedWaiters(cut);
    Associative(Flatten(cut.closed), cut.open.waiters, [w]);
  }

  lemma {:induction false} Associative(a: seq<Waiter>, b: seq<Waiter>, c: seq<Waiter>)
    ensures a + (b + c) == (a + b) + c
  {
  }

  lemma {:induction false} CutIsOk(valid: seq<Waiter>)
    requires AllServable(valid)
    ensures CutOk(CutOf(valid)) && (valid != [] ==> ChunkOk(CutOf(valid).open))
  {
    if valid != [] {
      var n := |valid| - 1;
      CutIsOk(valid[..n]);
      PlaceIsOk(CutOf(valid[..n]), valid[n]);
    }
  }

  lemma {:induction false} CutKeepsAll(valid: seq<Waiter>)
    ensures WaitersOf(CutOf(valid)) == valid
  {
    if valid != [] {
      var n := |valid| - 1;
      var cut, w := CutOf(valid[..n]), valid[n];
      CutKeepsAll(valid[..n]);
      assert valid == valid[..n] + [w];
      PlaceAppends(cut, w);
      assert CutOf(valid) == Place(cut, w);
    }
  }

  lemma {:induction false} ValidAreServable(ws: seq<Waiter>)
    ensures AllServable(Valid(ws))
  {
    if ws != [] {
      var n := |ws| - 1;
      ValidAreServable(ws[..n]);
      assert (Valid(ws[..n]) + [ws[n]])[..|Valid(ws[..n])|] == Valid(ws[..n]);
    }
  }

  /** The two lists split the queue. */
  lemma {:induction false} ValidOrInvalid(ws: seq<Waiter>, w: Waiter)
    ensures w in Valid(ws) <==> w in ws && Servable(w)
    ensures w in Invalid(ws) <==> w in ws && !Servable(w)
    ensures |Valid(ws)| + |Invalid(ws)| == |ws|
  {
    if ws != [] {
      var n := |ws| - 1;
      ValidOrInvalid(ws[..n], w);
      assert ws == ws[..n] + [ws[n]];
    }
  }

  /** In order and with none lost: the chunks are the servable waiters, cut into
      non-empty runs that each fit one RPC and carry their true total. */
  lemma {:induction false} ChunksPartitionQueue(queue: seq<Waiter>)
    ensures ChunksOk(ChunksOf(queue)) && Flatten(ChunksOf(queue)) == Valid(queue)
  {
    ValidAreServable(queue);
    CutIsOk(Valid(queue));
    CutKeepsAll(Valid(queue));
    ClosedWaiters(CutOf(Valid(queue)));
    CloseIsOk(CutOf(Valid(queue)));
  }

  // ------------------------------------------------------------------
  // No cut uses fewer RPCs
  // ------------------------------------------------------------------

  function Concat(runs: seq<seq<Waiter>>): seq<Waiter> {
    if runs == [] then [] else Concat(runs[..|runs| - 1]) + runs[|runs| - 1]
  }

  /** Any way at all of sending the waiters, in order, in requests that fit. */
  predicate Feasible(runs: seq<seq<Waiter>>) {
    if runs == [] then true
    else
      var n := |runs| - 1;
      runs[n] != [] && Sum(runs[n]) <= MAX_TIMESTAMPS_PER_RPC && Feasible(runs[..n])
  }

  function LastSum(runs: seq<seq<Waiter>>): nat {
    if runs == [] then 0 else Sum(runs[|runs| - 1])
  }

  /** The cut with its last waiter, of a run of several, taken out again. */
  lemma {:induction false} Shorten(runs: seq<seq<Waiter>>) returns (shorter: seq<seq<Waiter>>)
    requires Feasible(runs) && runs != [] && |runs[|runs| - 1]| > 1
    ensures Feasible(shorter) && |shorter| == |runs|
    ensures Concat(runs) != [] && Concat(shorter) == Concat(runs)[..|Concat(runs)| - 1]
    ensures LastSum(runs) == LastSum(shorter) + Concat(runs)[|Concat(runs)| - 1].count
  {
    var n := |runs| - 1;
    var last := runs[n];
    shorter := runs[..n] + [last[..|last| - 1]];
    assert shorter[..n] == runs[..n];
  }

  lemma {:induction false} LastRun(runs: seq<seq<Waiter>>)
    requires Feasible(runs) && runs != []
    ensures |Concat(runs)| == |Concat(runs[..|runs| - 1])| + |runs[|runs| - 1]| > 0
    ensures |runs[|runs| - 1]| == 1 ==>
              && Concat(runs[..|runs| - 1]) == Concat(runs)[..|Concat(runs)| - 1]
              && LastSum(runs) == Concat(runs)[|Concat(runs)| - 1].count
  {
    var last := runs[|runs| - 1];
    assert Concat(runs) == Concat(runs[..|runs| - 1]) + last;
    if |last| == 1 {
      assert last[..0] == [];
      assert Sum(last) == last[0].count;
    }
  }

  /** Greedy filling stays ahead of a feasible cut: it has used fewer requests, or as many
      with no more in the last one. */
  predicate Ahead(cut: Cut, runs: seq<seq<Waiter>>) {
    && |Close(cut)| <= |runs|
    && (|Close(cut)| == |runs| ==> cut.open.total <= LastSum(runs))
  }

  lemma {:induction false} AheadAfterRunOfOne(cut: Cut, w: Waiter, before: seq<seq<Waiter>>, runs: seq<seq<Waiter>>)
    requires CutOk(cut) && Servable(w) && Ahead(cut, before)
    requires |runs| == |before| + 1 && LastSum(runs) == w.count
    ensures Ahead(Place(cut, w), runs)
  {
  }

  lemma {:induction false} AheadAfterLongerRun(cut: Cut, w: Waiter, before: seq<seq<Waiter>>, runs: seq<seq<Waiter>>)
    requires CutOk(cut) && cut.open != NO_CHUNK && Servable(w) && Ahead(cut, before)
    requires |runs| == |before| && LastSum(runs) == LastSum(before) + w.count <= MAX_TIMESTAMPS_PER_RPC
    ensures Ahead(Place(cut, w), runs)
  {
  }

  lemma {:induction false} GreedyStaysAhead(valid: seq<Waiter>, runs: seq<seq<Waiter>>)
    requires AllServable(valid)
    requires Feasible(runs) && Concat(runs) == valid
    ensures Ahead(CutOf(valid), runs)
    decreases |valid|
  {
    if valid != [] {
      var n := |valid| - 1;
      CutIsOk(valid[..n]);
      var m := |runs| - 1;
      LastRun(runs);
      if |runs[m]| == 1 {
        GreedyStaysAhead(valid[..n], runs[..m]);
        AheadAfterRunOfOne(CutOf(valid[..n]), valid[n], runs[..m], runs);
      } else {
        var shorter := Shorten(runs);
        GreedyStaysAhead(valid[..n], shorter);
        AheadAfterLongerRun(CutOf(valid[..n]), valid[n], shorter, runs);
      }
    }
  }

  /** The queue is served with the fewest RPCs any in-order cut could use. */
  lemma {:induction false} FewestRpcs(queue: seq<Waiter>, runs: seq<seq<Waiter>>)
    requires Feasible(runs) && Concat(runs) == Valid(queue)
    ensures |ChunksOf(queue)| <= |runs|
  {
    ValidAreServable(queue);
    GreedyStaysAhead(Valid(queue), runs);
  }

  lemma {:induction false} NextInQueue(queue: seq<Waiter>, i: nat)
    requires i < |queue|
    ensures Servable(queue[i]) ==> CutOf(Valid(queue[..i + 1])) == Place(CutOf(Valid(queue[..i])), queue[i])
    ensures Servable(queue[i]) ==> Invalid(queue[..i + 1]) == Invalid(queue[..i])
    ensures !Servable(queue[i]) ==> Valid(queue[..i + 1]) == Valid(queue[..i])
    ensures !Servable(queue[i]) ==> Invalid(queue[..i + 1]) == Invalid(queue[..i]) + [queue[i]]
  {
    assert queue[..i + 1][..i] == queue[..i];
    var valid := Valid(queue[..i]);
    assert (valid + [queue[i]])[..|valid|] == valid;
  }

  /** The draining loop.  The queue's waiters end up in `chunks` or, when no request could
      carry them, in `rejected`; the running total never leaves 32 bits. */
  method ChunkQueue(queue: seq<Waiter>) returns (chunks: seq<Chunk>, rejected: seq<Waiter>)
    ensures chunks == ChunksOf(queue) && rejected == Invalid(queue)
    ensures ChunksOk(chunks) && Flatten(chunks) == Valid(queue)
  {
    chunks, rejected := [], [];
    var current: seq<Waiter> := [];
    var total: nat := 0;
    for i := 0 to |queue|
      invariant rejected == Invalid(queue[..i])
      invariant Cut(chunks, Chunk(total, current)) == CutOf(Valid(queue[..i]))
      invariant total <= MAX_TIMESTAMPS_PER_RPC
    {
      var w := queue[i];
      NextInQueue(queue, i);
      if w.count == 0 || w.count > MAX_TIMESTAMPS_PER_RPC {
        rejected := rejected + [w];
      } else {
        assert total + w.count <= U32_MAX;
        if total + w.count > MAX_TIMESTAMPS_PER_RPC {
          if current != [] {
            chunks := chunks + [Chunk(total, current)];
            current := [];
          }
          total := 0;
        }
        total := total + w.count;
        current := current + [w];
      }
    }
    assert queue[..|queue|] == queue;
    if current != [] {
      chunks := chunks + [Chunk(total, current)];
    }
    ChunksPartitionQueue(queue);
  }

  // ------------------------------------------------------------------
  // Handing out one reply
  // ------------------------------------------------------------------

  /** Errors are rebuilt for each waiter they fan out to. */
  function CloneError(e: ClientError): ClientError {
    if e.Transport? then TransportFanout else e
  }

  /** A copy says as much as the original about where the trouble lies. */
  lemma {:induction false} CopyKeepsKind(e: ClientError)
    ensures IsTransportFailure(CloneError(e)) <==> IsTransportFailure(e)
    ensures !e.Transport? ==> CloneError(e) == e
  {
  }

  const PROTOCOL_VIOLATION := Rpc(Status(Internal, Absent))

  /** The outcome of the `i`-th waiter of a chunk. */
  function OutcomeOf(c: Chunk, result: RpcResult, rpc: nat, i: nat): Outcome
    requires i < |c.waiters|
  {
    match result
    case Failure(e) => Failed(CloneError(e))
    case Success(range) =>
      if range.count != c.total then Failed(PROTOCOL_VIOLATION)
      else Slice(Consecutive(First(range) + Sum(c.waiters[..i]), c.waiters[i].count), rpc)
  }

  function Outcomes(c: Chunk, result: RpcResult, rpc: nat): seq<Outcome> {
    seq(|c.waiters|, i requires 0 <= i < |c.waiters| => OutcomeOf(c, result, rpc, i))
  }

  lemma {:induction false} SumMonotone(ws: seq<Waiter>, i: nat, j: nat)
    requires i <= j <= |ws|
    ensures Sum(ws[..i]) <= Sum(ws[..j])
    ensures i < j ==> Sum(ws[..i]) + ws[i].count <= Sum(ws[..j])
    decreases j
  {
    if i < j {
      SumMonotone(ws, i, j - 1);
      assert ws[..j][..j - 1] == ws[..j - 1];
    }
  }

  /** Slices of one reply tile it: they follow each other, in waiter order, from the
      first timestamp of the range to its last. */
  lemma {:induction false} SlicesFollow(c: Chunk, i: nat, j: nat)
    requires ChunkOk(c) && i < j <= |c.waiters|
    ensures Sum(c.waiters[..i]) + c.waiters[i].count <= Sum(c.waiters[..j]) <= c.total
    ensures j == i + 1 ==> Sum(c.waiters[..i]) + c.waiters[i].count == Sum(c.waiters[..j])
  {
    SumMonotone(c.waiters, i, j);
    SumMonotone(c.waiters, j, |c.waiters|);
    assert c.waiters[..|c.waiters|] == c.waiters;
    if j == i + 1 {
      assert c.waiters[..j][..i] == c.waiters[..i];
    }
  }

  /** The same failure for every waiter of a chunk. */
  method FailAll(c: Chunk, e: ClientError) returns (outs: seq<Outcome>)
    ensures |outs| == |c.waiters| && forall i :: 0 <= i < |outs| ==> outs[i] == Failed(e)
  {
    outs := [];
    for i := 0 to |c.waiters|
      invariant |outs| == i && forall j :: 0 <= j < i ==> outs[j] == Failed(e)
    {
      outs := outs + [Failed(e)];
    }
  }

  /** One chunk's reply, handed out waiter by waiter from the range's iterator. */
  method Deliver(c: Chunk, result: RpcResult, rpc: nat) returns (outs: seq<Outcome>)
    requires ChunkOk(c) && (result.Success? ==> ValidRange(result.value))
    ensures outs == Outcomes(c, result, rpc)
    ensures forall i :: 0 <= i < |outs| && outs[i].Slice? ==> |outs[i].timestamps| == c.waiters[i].count
  {
    if result.Failure? {
      outs := FailAll(c, CloneError(result.error));
      return;
    }
    var range := result.value;
    if range.count != c.total {
      outs := FailAll(c, PROTOCOL_VIOLATION);
      return;
    }
    outs := [];
    var rest := Iterate(range);
    IterateIsConsecutive(range);
    for i := 0 to |c.waiters|
      invariant |outs| == i && Sum(c.waiters[..i]) <= c.total
      invariant rest == Consecutive(First(range) + Sum(c.waiters[..i]), c.total - Sum(c.waiters[..i]))
      invariant forall j :: 0 <= j < i ==> outs[j] == OutcomeOf(c, result, rpc, j)
    {
      var w := c.waiters[i];
      SlicesFollow(c, i, i + 1);
      var slice := rest[..w.count];
      assert slice == Consecutive(First(range) + Sum(c.waiters[..i]), w.count);
      outs := outs + [Slice(slice, rpc)];
      rest := rest[w.count..];
    }
  }

  /** Which answer chunk `i` gets when the RPCs stop after `issued` of them. */
  function AnswerFor(answers: seq<RpcResult>, issued: nat, i: nat): RpcResult
    requires i < |answers| && (i >= issued ==> 0 < issued <= |answers| && answers[issued - 1].Failure?)
  {
    if i < issued then answers[i] else Failure(CloneError(answers[issued - 1].error))
  }

  /** `issued` RPCs is where a batch stops: at the first failure, or at the end. */
  predicate StopsAt(answers: seq<RpcResult>, issued: nat, done: nat) {
    && issued <= done <= |answers|
    && (forall i :: 0 <= i < issued - 1 ==> answers[i].Success?)
    && (issued < done ==> issued > 0 && answers[issued - 1].Failure?)
  }

  /** The batch task run to completion against a server that would answer chunk `i` with
      `answers[i]`: RPCs are issued one at a time up to and including the first that
      fails, and every later chunk is told of that failure without another RPC. */
  method RunChunks(chunks: seq<Chunk>, answers: seq<RpcResult>, firstRpc: nat) returns (outs: seq<seq<Outcome>>, issued: nat)
    requires ChunksOk(chunks) && |answers| == |chunks|
    requires forall i :: 0 <= i < |answers| && answers[i].Success? ==> ValidRange(answers[i].value)
    ensures |outs| == |chunks| && StopsAt(answers, issued, |chunks|)
    ensures forall i :: 0 <= i < |chunks| ==> outs[i] == Outcomes(chunks[i], AnswerFor(answers, issued, i), firstRpc + i)
    ensures forall i :: 0 <= i < issued ==> outs[i] == Outcomes(chunks[i], answers[i], firstRpc + i)
    ensures forall i, k :: issued <= i < |chunks| && 0 <= k < |outs[i]| ==>
              var e := answers[issued - 1].error;
              outs[i][k] == Failed(if e.Transport? then TransportFanout else e)
  {
    outs, issued := [], 0;
    var failed: Option<ClientError> := None;
    for n := 0 to |chunks|
      invariant |outs| == n && StopsAt(answers, issued, n)
      invariant failed.None? ==> issued == n && (n > 0 ==> answers[n - 1].Success?)
      invariant failed.Some? ==> issued > 0 && answers[issued - 1].Failure? && failed.value == CloneError(answers[issued - 1].error)
      invariant forall i :: 0 <= i < n ==> outs[i] == Outcomes(chunks[i], AnswerFor(answers, issued, i), firstRpc + i)
    {
      var result: RpcResult;
      if failed.Some? {
        result := Failure(CloneError(failed.value));
      } else {
        result := answers[n];
        issued := issued + 1;
        if result.Failure? { failed := Some(CloneError(result.error)); }
      }
      var out := Deliver(chunks[n], result, firstRpc + n);
      outs := outs + [out];
    }
  }
}
