/** The driver task and its batch task as they update their state in place.  Every method
    makes exactly one step of the state machine in module Coalescer. */
module CoalescingDriver {
  import opened Wrappers
  import opened ClientTypes
  import opened Timestamps
  import opened Chunking
  import opened Coalescer

  class Driver {
    const flushInterval: nat
    var counts: seq<nat>
    var received: nat
    var channel: seq<Waiter>
    var queue: seq<Waiter>
    var firstArrival: Option<nat>
    var inFlight: Option<Batch>
    var replies: map<nat, Outcome>
    var rpcs: seq<RpcRecord>
    var batches: nat
    var top: int
    var alive: bool

    ghost function View(): State
      reads this
    {
      State(counts, received, channel, queue, firstArrival, inFlight, replies, rpcs, batches, top, alive)
    }

    constructor (flushInterval: nat)
      ensures View() == INITIAL && this.flushInterval == flushInterval
    {
      this.flushInterval := flushInterval;
      counts, received, channel, queue, firstArrival, inFlight := [], 0, [], [], None, None;
      replies, rpcs, batches, top, alive := map[], [], 0, 0, true;
    }

    /** A caller asks for timestamps.  `id` identifies its reply; a full channel makes the
        caller wait, and a stopped driver turns it away. */
    method Request(count: nat) returns (id: Option<nat>)
      modifies this
      ensures id.Some? <==> Enabled(flushInterval, old(View()), Send(count))
      ensures id.Some? <==> old(alive) && |old(channel)| < 2048
      ensures id.Some? ==> id.value == |old(counts)| && View() == Apply(flushInterval, old(View()), Send(count))
      ensures id.None? ==> View() == old(View())
    {
      if !alive || |channel| >= HALF { return None; }
      id := Some(|counts|);
      channel := channel + [Waiter(|counts|, count)];
      counts := counts + [count];
    }

    /** The receive arm of the driver's select, gated on the queue's length. */
    method Receive(now: nat)
      requires Enabled(flushInterval, View(), Action.Receive(now))
      modifies this
      ensures View() == Apply(flushInterval, old(View()), Action.Receive(now))
    {
      var w := channel[0];
      channel, received := channel[1..], received + 1;
      if firstArrival.None? { firstArrival := Some(now); }
      queue := queue + [w];
    }

    /** Hand the outcomes to their waiters one at a time. */
    method Reply(ws: seq<Waiter>, outs: seq<Outcome>)
      requires |outs| == |ws|
      modifies `replies
      ensures replies == Answer(old(replies), ws, outs)
    {
      for i := 0 to |ws|
        invariant replies == Answer(old(replies), ws[..i], outs[..i])
      {
        assert ws[..i + 1][..i] == ws[..i] && outs[..i + 1][..i] == outs[..i];
        replies := replies[ws[i].id := outs[i]];
      }
      assert ws[..|ws|] == ws && outs[..|ws|] == outs;
    }

    /** Answer the waiters no RPC could serve. */
    method Reject(rejected: seq<Waiter>)
      modifies `replies
      ensures replies == Answer(old(replies), rejected, Rejections(rejected))
    {
      var outs: seq<Outcome> := [];
      for i := 0 to |rejected|
        invariant |outs| == i && forall j :: 0 <= j < i ==> outs[j] == Rejections(rejected)[j]
      {
        outs := outs + [Failed(ClientError.InvalidCount(rejected[i].count))];
      }
      assert outs == Rejections(rejected);
      Reply(rejected, outs);
    }

    method StartBatch(chunks: seq<Chunk>, rejected: seq<Waiter>)
      modifies this
      ensures View() == FlushInto(old(View()), chunks, rejected)
    {
      firstArrival, queue, batches := None, [], batches + 1;
      Reject(rejected);
      inFlight := if chunks == [] then None else Some(Batch(chunks, None, false));
    }

    /** Drain the queue into a batch. */
    method Flush(now: nat)
      requires Enabled(flushInterval, View(), Action.Flush(now))
      modifies this
      ensures View() == Apply(flushInterval, old(View()), Action.Flush(now))
    {
      var chunks, rejected := ChunkQueue(queue);
      StartBatch(chunks, rejected);
    }

    /** Put the next chunk's request on the wire. */
    method IssueRpc() returns (count: nat)
      requires Enabled(flushInterval, View(), Issue)
      modifies this
      ensures View() == Apply(flushInterval, old(View()), Issue)
      ensures count == old(inFlight).value.chunks[0].total
    {
      count := inFlight.value.chunks[0].total;
      rpcs := rpcs + [RpcRecord(batches, received, count, None)];
      inFlight := Some(inFlight.value.(awaiting := true));
    }

    /** The RPC of the first chunk has returned: deliver it and remember a failure. */
    method CompleteRpc(result: RpcResult)
      requires Enabled(flushInterval, View(), Return(result)) && ChunkOk(inFlight.value.chunks[0])
      modifies this
      ensures View() == Apply(flushInterval, old(View()), Return(result))
    {
      var b, r := inFlight.value, |rpcs| - 1;
      var failed := b.failed;
      if result.Failure? { failed := Some(CloneError(result.error)); }
      var outs := Deliver(b.chunks[0], result, r);
      Reply(b.chunks[0].waiters, outs);
      if result.Success? { top := First(result.value) + result.value.count; }
      rpcs := rpcs[r := rpcs[r].(result := Some(result))];
      inFlight := Some(Batch(b.chunks[1..], failed, false));
    }

    /** After a failure the remaining chunks hear of it without an RPC of their own. */
    method FailChunk()
      requires Enabled(flushInterval, View(), FailFast) && ChunkOk(inFlight.value.chunks[0])
      modifies this
      ensures View() == Apply(flushInterval, old(View()), FailFast)
    {
      var b := inFlight.value;
      var outs := Deliver(b.chunks[0], Failure(CloneError(b.failed.value)), 0);
      Reply(b.chunks[0].waiters, outs);
      inFlight := Some(Batch(b.chunks[1..], b.failed, false));
    }
  }
}
