/** One timestamp attempt as the client makes it: lease a channel, send the request under
    what the connect left of the budget, read the reply, and drop the channel if it looks dead. */
module Attempts {
  import opened Wrappers
  import opened ClientTypes
  import opened Timestamps
  import opened Budgets
  import opened Retry
  import opened RetryLoop
  import P = ChannelPools
  import L = LeaderCaches

  /** What the server puts on the wire. */
  datatype Wire = Response(response: GetTsResponse, epoch: nat) | Refusal(status: Status)

  /** The timestamps an attempt obtained and the epoch that vouched for them. */
  type Leased = (TimestampRange, nat)

  /** How a reply that arrived at `at` reads, given the leader cached then. */
  function Reading(cfg: L.Config, cached: Option<L.CachedLeader>, at: nat, wire: Wire, count: nat): Outcome<Leased>
    requires wire.Response? ==> WireFields(wire.response)
  {
    match wire
    case Response(response, epoch) =>
      (match DecodeGetTsResponse(response, count)
       case Success(range) => Ok((range, epoch))
       case Failure(_) => Err(Rpc(Status(Internal, Absent))))
    case Refusal(status) =>
      if status.code != FailedPrecondition then Err(Rpc(status))
      else if status.hint.Absent? then NoLeaderYet(status)
      else if L.UsableHint(cfg, status.hint).None? then Unusable(status, false)
      else
        var hinted := L.UsableHint(cfg, status.hint).value;
        if L.Seat(cfg, cached, at, hinted, status.hint.epoch, L.Hinted).1 then Hint(hinted) else Unusable(status, true)
  }

  /** The attempt obtained what the wire held: the packed values from the response's first one
      on, as many as were asked for, under the epoch of that response. */
  predicate Obtained(wire: Wire, count: nat, leased: Leased) {
    && wire.Response? && leased.1 == wire.epoch
    && |Iterate(leased.0)| == count
    && forall i :: 0 <= i < count ==> Iterate(leased.0)[i] == Pack(wire.response.physicalMs, wire.response.logicalStart + i)
  }

  /** How each reply reads, from its fields.  Success needs a response of the size asked for
      whose timestamps all pack; a NOT_LEADER reply without a trailer means no leader yet, one
      that names an endpoint the client may use is followed if the cache seats it and stale
      otherwise, and any other trailer is unusable; every other status is an error as it is. */
  lemma {:induction false} ReadingByFields(cfg: L.Config, cached: Option<L.CachedLeader>, at: nat, wire: Wire, count: nat)
    requires wire.Response? ==> WireFields(wire.response)
    ensures var o := Reading(cfg, cached, at, wire, count);
            && (o.Ok? ==> Obtained(wire, count, o.result))
            && (wire.Response? ==>
                  var r := wire.response;
                  && (o.Ok? <==> r.count == count && ValidRange(TimestampRange(r.physicalMs, r.logicalStart, r.count)))
                  && (!o.Ok? ==> o == Err(Rpc(Status(Internal, Absent)))))
            && (wire.Refusal? && wire.status.code != FailedPrecondition ==> o == Err(Rpc(wire.status)))
            && (IsRedirect(wire) ==>
                  var st := wire.status;
                  var named := if st.hint.Decoded? then st.hint.endpoint else None;
                  var usable := named.Some? && !(cfg.tlsRequired && "http://" <= named.value);
                  && (st.hint.Absent? ==> o == NoLeaderYet(st))
                  && (!st.hint.Absent? && !usable ==> o == Unusable(st, false))
                  && (usable ==> o == Hint(named.value) || o == Unusable(st, true))
                  && (usable ==> (o.Hint? <==> L.Seat(cfg, cached, at, named.value, st.hint.epoch, L.Hinted).1)))
  {
  }

  /** A redirect: the only reply that may touch the leader cache. */
  predicate IsRedirect(wire: Wire) { wire.Refusal? && wire.status.code.FailedPrecondition? }

  /** What an outcome leaves in the leader cache: a followed hint is seated under its epoch,
      and nothing else touches the entry. */
  function LeaderAfter(cfg: L.Config, cached: Option<L.CachedLeader>, at: nat, wire: Wire, o: Outcome<Leased>): Option<L.CachedLeader> {
    if o.Hint? && IsRedirect(wire) && wire.status.hint.Decoded?
    then L.Seat(cfg, cached, at, o.hinted, wire.status.hint.epoch, L.Hinted).0 else cached
  }

  method ReadReply(cache: L.LeaderCache, at: nat, wire: Wire, count: nat) returns (o: Outcome<Leased>)
    requires wire.Response? ==> WireFields(wire.response)
    modifies cache
    ensures o == Reading(cache.cfg, old(cache.leader), at, wire, count)
    ensures cache.leader == LeaderAfter(cache.cfg, old(cache.leader), at, wire, o)
    ensures o.Ok? ==> o.result.0.count == count && ValidRange(o.result.0) && Obtained(wire, count, o.result)
  {
    ReadingByFields(cache.cfg, cache.leader, at, wire, count);
    match wire
    case Response(response, epoch) =>
      var decoded := DecodeGetTsResponse(response, count);
      if decoded.Success? { return Ok((decoded.value, epoch)); }
      return Err(Rpc(Status(Internal, Absent)));
    case Refusal(status) =>
      if status.code != FailedPrecondition { return Err(Rpc(status)); }
      var verdict := cache.ClassifyNotLeaderHint(at, status.hint);
      match verdict
      case Follow(hinted, _) => return Hint(hinted);
      case NoLeaderKnown => return NoLeaderYet(status);
      case StaleHint => return Unusable(status, true);
      case RejectedHint => return Unusable(status, false);
  }

  /** Drop the channel just leased. */
  method DropChannel(pool: P.ChannelPool, endpoint: Endpoint, cell: nat)
    requires P.PoolInv(pool.configured, pool.View()) && endpoint in pool.channels && pool.channels[endpoint].cell == cell
    modifies pool
    ensures P.PoolInv(pool.configured, pool.View()) && endpoint !in pool.channels
    ensures P.EvictStep(old(pool.View()), pool.View(), endpoint, cell)
  {
    ghost var before := pool.View();
    pool.EvictIfCurrent(endpoint, cell);
    P.StepKeepsInv(pool.configured, before, pool.View(), P.Evict(endpoint, cell));
  }

  /** What comes of a request once the channel is open. */
  method AfterConnect(cache: L.LeaderCache, replied: bool, at: nat, wire: Wire, count: nat) returns (o: Outcome<Leased>)
    requires wire.Response? ==> WireFields(wire.response)
    modifies cache
    ensures o == if replied then Reading(cache.cfg, old(cache.leader), at, wire, count) else Err(Rpc(TIMED_OUT))
    ensures cache.leader == if replied then LeaderAfter(cache.cfg, old(cache.leader), at, wire, o) else old(cache.leader)
  {
    if !replied { return Err(Rpc(TIMED_OUT)); }
    o := ReadReply(cache, at, wire, count);
  }

  /** The one place where a request's failure costs the channel. */
  method KeepOrDrop(pool: P.ChannelPool, endpoint: Endpoint, cell: nat, o: Outcome<Leased>) returns (evicted: bool)
    requires P.PoolInv(pool.configured, pool.View()) && endpoint in pool.channels && pool.channels[endpoint].cell == cell
    modifies pool
    ensures evicted <==> o.Err? && IsTransportFailure(o.err)
    ensures P.PoolInv(pool.configured, pool.View())
    ensures if evicted then endpoint !in pool.channels && P.EvictStep(old(pool.View()), pool.View(), endpoint, cell)
            else pool.View() == old(pool.View())
  {
    evicted := o.Err? && IsTransportFailure(o.err);
    if evicted { DropChannel(pool, endpoint, cell); }
  }

  /** The timed part of an attempt, over the channel just leased. */
  method Converse(pool: P.ChannelPool, cache: L.LeaderCache, endpoint: Endpoint, cell: nat, count: nat, now: nat, budget: nat,
                  timing: Timing, connectError: Option<AttemptError>, wire: Wire)
    returns (o: Outcome<Leased>, endedAt: nat, evicted: bool)
    requires wire.Response? ==> WireFields(wire.response)
    requires P.PoolInv(pool.configured, pool.View()) && endpoint in pool.channels && pool.channels[endpoint].cell == cell
    modifies pool, cache
    ensures now <= endedAt <= now + budget && P.PoolInv(pool.configured, pool.View())
    ensures var reply := Reading(cache.cfg, old(cache.leader), now + timing.connectTook + timing.rpcTook, wire, count);
            o == Verdict(Attempt(timing, connectError, reply, 0), budget)
    ensures evicted <==> timing.connectTook <= budget && (connectError.Some? || (o.Err? && IsTransportFailure(o.err)))
    ensures if evicted then endpoint !in pool.channels && P.EvictStep(old(pool.View()), pool.View(), endpoint, cell)
            else pool.View() == old(pool.View())
    ensures cache.leader == LeaderAfter(cache.cfg, old(cache.leader), now + timing.connectTook + timing.rpcTook, wire, o)
  {
    var end;
    end, endedAt := RunPair(now, budget, timing, connectError.None?);
    if end.ConnectTimedOut? { return Err(Rpc(TIMED_OUT)), endedAt, false; }
    if end.ConnectFailed? {
      DropChannel(pool, endpoint, cell);
      return Err(connectError.value), endedAt, true;
    }
    o := AfterConnect(cache, end.Replied?, endedAt, wire, count);
    evicted := KeepOrDrop(pool, endpoint, cell, o);
  }

  /** What a reply's reading means for the whole attempt: which endings cost the channel, and
      what a success obtained. */
  lemma {:induction false} AttemptByFields(wire: Wire, count: nat, timing: Timing, connectError: Option<AttemptError>,
                                           reply: Outcome<Leased>, budget: nat)
    requires reply.Ok? ==> Obtained(wire, count, reply.result)
    requires reply.Err? ==> (wire.Response? && reply.err == Rpc(Status(Internal, Absent))) || (wire.Refusal? && reply.err == Rpc(wire.status))
    requires wire.Refusal? && wire.status.code != FailedPrecondition ==> reply.Err?
    ensures var o := Verdict(Attempt(timing, connectError, reply, 0), budget);
            && (o.Ok? ==> timing.connectTook + timing.rpcTook <= budget && Obtained(wire, count, o.result))
            && (timing.connectTook <= budget ==>
                  (connectError.Some? || (o.Err? && IsTransportFailure(o.err)) <==>
                     || connectError.Some? || timing.connectTook + timing.rpcTook > budget
                     || (wire.Refusal? && wire.status.code in {Unavailable, DeadlineExceeded})))
  {
  }

  /** A whole attempt.  Its outcome is the verdict of the retry loop's model on the same
      timings; the leased channel is dropped exactly when the dial failed or a request over
      it met a transport failure or ran out of time, and is kept by every other ending. */
  method AttemptGetTs(pool: P.ChannelPool, cache: L.LeaderCache, endpoint: Endpoint, count: nat, now: nat, budget: nat,
                      timing: Timing, connectError: Option<AttemptError>, wire: Wire)
    returns (o: Outcome<Leased>, endedAt: nat, cell: nat, evicted: bool, ghost leased: P.Pool)
    requires (wire.Response? ==> WireFields(wire.response)) && P.PoolInv(pool.configured, pool.View())
    modifies pool, cache
    ensures now <= endedAt <= now + budget && P.PoolInv(pool.configured, pool.View())
    ensures var reply := Reading(cache.cfg, old(cache.leader), now + timing.connectTook + timing.rpcTook, wire, count);
            o == Verdict(Attempt(timing, connectError, reply, 0), budget)
    ensures evicted <==> timing.connectTook <= budget && (connectError.Some? || (o.Err? && IsTransportFailure(o.err)))
    ensures evicted <==>
              && timing.connectTook <= budget
              && (|| connectError.Some? || timing.connectTook + timing.rpcTook > budget
                  || (wire.Refusal? && wire.status.code in {Unavailable, DeadlineExceeded}))
    ensures P.LookupStep(pool.configured, old(pool.View()), leased, endpoint, now, cell)
    ensures if evicted then endpoint !in pool.channels && P.EvictStep(leased, pool.View(), endpoint, cell) else pool.View() == leased
    ensures cache.leader == LeaderAfter(cache.cfg, old(cache.leader), now + timing.connectTook + timing.rpcTook, wire, o)
    ensures o.Ok? ==> timing.connectTook + timing.rpcTook <= budget && Obtained(wire, count, o.result)
  {
    ghost var at := now + timing.connectTook + timing.rpcTook;
    ghost var reply := Reading(cache.cfg, cache.leader, at, wire, count);
    ReadingByFields(cache.cfg, cache.leader, at, wire, count);
    AttemptByFields(wire, count, timing, connectError, reply, budget);
    cell := pool.Find(endpoint, now);
    leased := pool.View();
    o, endedAt, evicted := Converse(pool, cache, endpoint, cell, count, now, budget, timing, connectError, wire);
  }
}
