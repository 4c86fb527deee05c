/** Waiting in the coalescing driver ends: while someone waits the driver has a step to take,
    and it can take only so many. */
module CoalescerProgress {
  import opened Wrappers
  import opened ClientTypes
  import opened Chunking
  import opened Coalescer
  import opened CoalescerRuns

  /** Steps of the driver and batch tasks and of the RPCs they wait for, as opposed to
      callers arriving and the driver being stopped. */
  predicate DriverSide(a: Action) { !a.Send? && !a.Stop? }

  function BatchWork(batch: Option<Batch>): nat {
    if batch.None? then 0
    else 3 * |batch.value.chunks| + (if batch.value.awaiting then 1 else 2)
  }

  /** How many driver-side steps can still follow. */
  function Work(s: State): nat { 7 * |s.channel| + 6 * |s.queue| + BatchWork(s.batch) }

  lemma {:induction false} ChunksAtMostWaiters(chunks: seq<Chunk>)
    requires ChunksOk(chunks)
    ensures |chunks| <= |Flatten(chunks)|
  {
    if chunks != [] { ChunksAtMostWaiters(chunks[..|chunks| - 1]); }
  }

  lemma {:induction false} FewChunks(queue: seq<Waiter>)
    ensures |ChunksOf(queue)| <= |queue|
  {
    ChunksPartitionQueue(queue);
    ValidOrInvalid(queue, Waiter(0, 0));
    ChunksAtMostWaiters(ChunksOf(queue));
  }

  lemma {:induction false} FlushIntoLowersWork(s: State, chunks: seq<Chunk>, rejected: seq<Waiter>)
    requires s.batch.None? && s.queue != [] && |chunks| <= |s.queue|
    ensures Work(FlushInto(s, chunks, rejected)) < Work(s)
  {
  }

  lemma {:induction false} FlushLowersWork(s: State)
    requires s.batch.None? && s.queue != []
    ensures Work(AfterFlush(s)) < Work(s)
  {
    FewChunks(s.queue);
    FlushIntoLowersWork(s, ChunksOf(s.queue), Invalid(s.queue));
  }

  lemma {:induction false} StepLowersWork(f: nat, s: State, a: Action)
    requires Enabled(f, s, a) && DriverSide(a)
    ensures Work(Apply(f, s, a)) < Work(s)
  {
    if a.Flush? { FlushLowersWork(s); }
  }

  /** While someone waits, a step other than a panic is enabled. */
  lemma {:induction false} SomethingToDo(f: nat, acts: seq<Action>) returns (a: Action)
    requires Exec(f, acts).Some? && Pending(Exec(f, acts).value) != []
    ensures DriverSide(a) && !a.Panic? && Enabled(f, Exec(f, acts).value, a)
  {
    var s := Exec(f, acts).value;
    CapacityHolds(f, acts);
    NoRpcAfterFailure(f, acts);
    if s.batch.Some? {
      var b := s.batch.value;
      if b.chunks == [] {
        a := Join;
      } else if b.awaiting {
        a := Return(Failure(NoReachableEndpoints));
      } else if b.failed.Some? {
        a := FailFast;
      } else {
        a := Issue;
      }
    } else if s.queue != [] {
      a := Flush(s.firstArrival.value + f);
    } else {
      a := Receive(0);
    }
  }

  predicate AllDriverSide(acts: seq<Action>) { forall i :: 0 <= i < |acts| ==> DriverSide(acts[i]) }

  lemma {:induction false} LastStep(f: nat, acts: seq<Action>, before: seq<Action>, a: Action)
    requires acts == before + [a] && Exec(f, acts).Some?
    ensures Exec(f, before).Some? && Enabled(f, Exec(f, before).value, a)
    ensures Exec(f, acts).value == Apply(f, Exec(f, before).value, a)
  {
    assert acts[..|acts| - 1] == before;
  }

  lemma {:induction false} RunLowersWork(f: nat, acts: seq<Action>, more: seq<Action>)
    requires Exec(f, acts + more).Some? && AllDriverSide(more)
    ensures Exec(f, acts).Some? && |more| + Work(Exec(f, acts + more).value) <= Work(Exec(f, acts).value)
  {
    if more == [] {
      assert acts + more == acts;
    } else {
      var m := |more| - 1;
      var before := acts + more[..m];
      assert acts + more == before + [more[m]];
      LastStep(f, acts + more, before, more[m]);
      StepLowersWork(f, Exec(f, before).value, more[m]);
      RunLowersWork(f, acts, more[..m]);
    }
  }

  /** Every waiter is answered: once callers stop arriving the driver takes at most a known
      number of steps, and when it has none left no one waits. */
  lemma {:induction false} EveryWaiterIsAnswered(f: nat, acts: seq<Action>, more: seq<Action>, id: nat)
    requires Exec(f, acts + more).Some? && AllDriverSide(more)
    ensures Exec(f, acts).Some? && |more| <= Work(Exec(f, acts).value)
    ensures var t := Exec(f, acts + more).value;
            (forall a :: DriverSide(a) ==> !Enabled(f, t, a)) && id < |t.counts| ==> id in t.replies
  {
    RunLowersWork(f, acts, more);
    var t := Exec(f, acts + more).value;
    WaitingOrAnswered(f, acts + more, id);
    if id in Ids(Pending(t)) {
      var a := SomethingToDo(f, acts + more);
    }
  }

  /** A stopped driver with no batch in flight has answered everyone it accepted. */
  lemma {:induction false} StoppedIsDone(f: nat, acts: seq<Action>, id: nat)
    requires Exec(f, acts).Some? && !Exec(f, acts).value.alive && Exec(f, acts).value.batch.None?
    ensures Pending(Exec(f, acts).value) == []
    ensures id < |Exec(f, acts).value.counts| ==> id in Exec(f, acts).value.replies
  {
    CapacityHolds(f, acts);
    WaitingOrAnswered(f, acts, id);
  }
}
