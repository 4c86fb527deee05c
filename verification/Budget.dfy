/** Deadline arithmetic of the retry loops, in microseconds. */
module Budgets {
  import opened Wrappers
  import opened Basics

  datatype Policy = Policy(maxAttempts: nat, perAttempt: nat, overall: nat, baseBackoff: nat)

  const MAX_BACKOFF: nat := 5_000_000

  datatype Budget = Budget(deadline: nat, perAttempt: nat)

  function Start(policy: Policy, now: nat): Budget {
    Budget(now + policy.overall, policy.perAttempt)
  }

  function Remaining(deadline: nat, now: nat): nat { if now >= deadline then 0 else deadline - now }

  /** Budget for the next attempt, or none once the overall deadline is reached. An
      attempt that stays within it cannot overrun the deadline, and it is cut below
      the per-attempt cap only when the deadline is nearer than that. */
  function NextAttempt(b: Budget, now: nat): (r: Option<nat>)
    ensures r.Some? <==> now < b.deadline
    ensures r.Some? ==> r.value <= b.perAttempt && now + r.value <= b.deadline
    ensures r.Some? && r.value < b.perAttempt ==> now + r.value == b.deadline
  {
    if now >= b.deadline then None else Some(Min(b.deadline - now, b.perAttempt))
  }

  function ClampBackoff(b: Budget, now: nat, backoff: nat): (r: nat)
    ensures r <= backoff
    ensures now <= b.deadline ==> now + r <= b.deadline
    ensures now + backoff <= b.deadline ==> r == backoff
  {
    Min(backoff, Remaining(b.deadline, now))
  }

  function PowerOfTwo(n: nat): nat { if n == 0 then 1 else 2 * PowerOfTwo(n - 1) }

  /** Upper end of the jittered exponential backoff window. */
  function BackoffUpper(base: nat, attempt: nat): nat {
    Min(base * PowerOfTwo(Min(attempt, 20)), MAX_BACKOFF)
  }

  /** The window starts at the base and doubles with every attempt, up to five seconds; from
      the twentieth doubling on it stays as it is. */
  lemma {:induction false} WindowDoubles(base: nat, attempt: nat)
    ensures BackoffUpper(base, 0) == Min(base, MAX_BACKOFF)
    ensures attempt < 20 ==> BackoffUpper(base, attempt + 1) == Min(2 * BackoffUpper(base, attempt), MAX_BACKOFF)
    ensures attempt >= 20 ==> BackoffUpper(base, attempt + 1) == BackoffUpper(base, attempt)
  {
    if attempt < 20 {
      assert base * PowerOfTwo(attempt + 1) == 2 * (base * PowerOfTwo(attempt));
    }
  }

  /** The sleep after a failure: some jittered pick of the window, clamped.  Every length in
      the window that ends by the deadline can be picked. */
  function Nap(b: Budget, now: nat, base: nat, attempt: nat, jitter: nat): (r: nat)
    ensures r <= BackoffUpper(base, attempt) <= 5_000_000
    ensures now <= b.deadline ==> now + r <= b.deadline
    ensures jitter <= BackoffUpper(base, attempt) && now + jitter <= b.deadline ==> r == jitter
  {
    ClampBackoff(b, now, Min(jitter, BackoffUpper(base, attempt)))
  }

  /** One (connect, RPC) pair under one budget: the connect phase may take the whole
      budget, and the RPC phase gets what is left of it. */
  datatype Timing = Timing(connectTook: nat, rpcTook: nat)

  datatype PairEnd = ConnectTimedOut | ConnectFailed | RpcTimedOut | Replied

  method RunPair(now: nat, budget: nat, t: Timing, connects: bool) returns (end: PairEnd, endedAt: nat)
    ensures now <= endedAt <= now + budget
    ensures end.ConnectTimedOut? <==> t.connectTook > budget
    ensures end.ConnectFailed? <==> t.connectTook <= budget && !connects
    ensures end.Replied? <==> connects && t.connectTook + t.rpcTook <= budget
    ensures end.ConnectFailed? ==> endedAt == now + t.connectTook
    ensures end.Replied? ==> endedAt == now + t.connectTook + t.rpcTook
    ensures end.ConnectTimedOut? || end.RpcTimedOut? ==> endedAt == now + budget
  {
    var deadline := now + budget;
    if t.connectTook > budget {
      return ConnectTimedOut, deadline;
    }
    var connectedAt := now + t.connectTook;
    if !connects {
      return ConnectFailed, connectedAt;
    }
    var left := Remaining(deadline, connectedAt);
    if t.rpcTook > left {
      return RpcTimedOut, connectedAt + left;
    }
    return Replied, connectedAt + t.rpcTook;
  }
}
