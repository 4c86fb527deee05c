/** The replicated high-water: an advance-to-at-least register and the guard that
    keeps values no timestamp can carry out of the log. */
module HighWater {
  import opened Wrappers
  import opened Timestamps

  /** The rule every backend's state machine runs when it applies an advance. */
  function Merge(atLeast: nat, current: nat): nat {
    if current >= atLeast then current else atLeast
  }

  /** The propose-time guard: a value above the 46-bit field can never be served. */
  function RejectOutOfRange(atLeast: nat): Result<(), nat> {
    if atLeast > PHYSICAL_MS_MAX then Failure(atLeast) else Success(())
  }

  /** A replica applies a log of advances, oldest first. */
  function ApplyAll(current: nat, log: seq<nat>): nat {
    if log == [] then current else Merge(log[|log| - 1], ApplyAll(current, log[..|log| - 1]))
  }

  /** After any log the register holds the maximum of its start and the log. */
  lemma {:induction false} ApplyAllIsMaximum(current: nat, log: seq<nat>)
    ensures current <= ApplyAll(current, log)
    ensures forall v :: v in log ==> v <= ApplyAll(current, log)
    ensures ApplyAll(current, log) == current || ApplyAll(current, log) in log
  {
    if log != [] {
      var rest := log[..|log| - 1];
      ApplyAllIsMaximum(current, rest);
      assert forall v :: v in log ==> v in rest || v == log[|log| - 1];
    }
  }

  /** Replicas that saw the same advances agree, whatever the order and however
      often each was delivered. */
  lemma {:induction false} ReplicasAgree(current: nat, log1: seq<nat>, log2: seq<nat>)
    requires forall v :: v in log1 <==> v in log2
    ensures ApplyAll(current, log1) == ApplyAll(current, log2)
  {
    ApplyAllIsMaximum(current, log1);
    ApplyAllIsMaximum(current, log2);
  }

  /** The guard refuses exactly the values no timestamp can carry. */
  lemma {:induction false} GuardIsExact(v: nat)
    ensures RejectOutOfRange(v).Success? <==> TryPack(v, 0).Success?
    ensures RejectOutOfRange(v).Failure? ==> RejectOutOfRange(v).error == v
  {
  }

  /** Guarded proposals never push a replica past the 46-bit cap. */
  lemma {:induction false} GuardedLogStaysInRange(current: nat, log: seq<nat>)
    requires current <= PHYSICAL_MS_MAX
    requires forall v :: v in log ==> RejectOutOfRange(v).Success?
    ensures ApplyAll(current, log) <= PHYSICAL_MS_MAX
  {
    ApplyAllIsMaximum(current, log);
  }
}
