/** The window allocator of tsoracle-core: a cursor inside a durably committed
    window, advanced by grants and widened by a prepare, persist, commit round. */
module Allocators {
  import opened Wrappers
  import opened Timestamps

  datatype State =
    | NotLeader
    | Leader(epoch: nat, ceiling: nat, nextPhysical: nat, nextLogical: nat)

  datatype WindowGrant = WindowGrant(physicalMs: nat, logicalStart: nat, count: nat, epoch: nat)

  datatype CoreError =
    | NotLeaderError
    | WindowExhausted
    | InvalidCount(count: nat)
    | PhysicalMsTooLarge(physicalMs: nat)
    | InvalidLeadershipWindow(fenceFloor: nat, committedCeiling: nat)
    | WindowExtensionOverflow(floor: nat, nowMs: nat, aheadMs: nat)

  datatype CommitOutcome = Applied(highWater: nat) | Ignored(reason: IgnoreReason)

  datatype IgnoreReason =
    | LostLeadership
    | EpochMismatch(expected: nat, current: nat)
    | NotAdvanced(persisted: nat, committed: nat)

  /** The cursor may sit one past the ceiling, but only right after a grant that
      filled the last committed millisecond. */
  predicate WellFormed(st: State) {
    st.Leader? ==>
      && st.ceiling <= PHYSICAL_MS_MAX
      && st.nextLogical <= LOGICAL_MAX
      && (st.nextPhysical <= st.ceiling || (st.nextPhysical == st.ceiling + 1 && st.nextLogical == 0))
  }

  /** The cursor as a packed value: nothing below it will be issued again. */
  function Cursor(st: State): nat
    requires st.Leader?
  {
    Pack(st.nextPhysical, st.nextLogical)
  }

  predicate CountOk(count: nat) { 1 <= count <= LOGICAL_MAX + 1 }

  function FirstTs(g: WindowGrant): nat { Pack(g.physicalMs, g.logicalStart) }

  function ProjectGrant(st: State, nowMs: nat, count: nat): Result<(nat, nat), CoreError>
    requires st.Leader?
  {
    var clocked := nowMs > st.nextPhysical;
    var p := if clocked then nowMs else st.nextPhysical;
    var l := if clocked then 0 else st.nextLogical;
    var rolls := l + count > LOGICAL_MAX + 1;
    var physical := if rolls then p + 1 else p;
    var logical := if rolls then 0 else l;
    if physical > PHYSICAL_MS_MAX then Failure(PhysicalMsTooLarge(physical))
    else if physical > st.ceiling then Failure(WindowExhausted)
    else Success((physical, logical))
  }

  function AdvanceCursor(physical: nat, logicalStart: nat, count: nat): (nat, nat) {
    if logicalStart + count > LOGICAL_MAX then (physical + 1, 0) else (physical, logicalStart + count)
  }

  /** A grant attempt as a value: the reply, and the state it leaves behind. */
  function Grant(st: State, nowMs: nat, count: nat): (Result<WindowGrant, CoreError>, State) {
    if !CountOk(count) then (Failure(InvalidCount(count)), st)
    else if st.NotLeader? then (Failure(NotLeaderError), st)
    else match ProjectGrant(st, nowMs, count)
      case Failure(e) => (Failure(e), st)
      case Success((p, l)) =>
        var (np, nl) := AdvanceCursor(p, l, count);
        (Success(WindowGrant(p, l, count, st.epoch)), st.(nextPhysical := np, nextLogical := nl))
  }

  function Seed(fenceFloor: nat, committedCeiling: nat, epoch: nat): Result<State, CoreError> {
    if fenceFloor > PHYSICAL_MS_MAX then Failure(PhysicalMsTooLarge(fenceFloor))
    else if committedCeiling > PHYSICAL_MS_MAX then Failure(PhysicalMsTooLarge(committedCeiling))
    else if committedCeiling < fenceFloor then Failure(InvalidLeadershipWindow(fenceFloor, committedCeiling))
    else Success(Leader(epoch, committedCeiling, fenceFloor, 0))
  }

  function PrepareExtension(st: State, nowMs: nat, aheadMs: nat): Result<nat, CoreError> {
    if st.NotLeader? then Failure(NotLeaderError)
    else if nowMs > PHYSICAL_MS_MAX then Failure(PhysicalMsTooLarge(nowMs))
    else
      var base := if st.ceiling + 1 >= nowMs then st.ceiling + 1 else nowMs;
      if base + aheadMs > U64_MAX then Failure(WindowExtensionOverflow(st.ceiling + 1, nowMs, aheadMs))
      else if base + aheadMs > PHYSICAL_MS_MAX then Failure(PhysicalMsTooLarge(base + aheadMs))
      else Success(base + aheadMs)
  }

  function CommitExtension(st: State, persisted: nat, expectedEpoch: nat): (CommitOutcome, State) {
    if st.NotLeader? then (Ignored(LostLeadership), st)
    else if st.epoch != expectedEpoch then (Ignored(EpochMismatch(expectedEpoch, st.epoch)), st)
    else if persisted <= st.ceiling then (Ignored(NotAdvanced(persisted, st.ceiling)), st)
    else (Applied(persisted), st.(ceiling := persisted))
  }

  // ------------------------------------------------------------------
  // What a grant is
  // ------------------------------------------------------------------

  /** Whether `count` timestamps may start at packed value `v`: not behind the
      cursor, not behind the clock, and inside one millisecond. */
  predicate MayStartAt(st: State, nowMs: nat, count: nat, v: nat)
    requires st.Leader?
  {
    && Cursor(st) <= v
    && Pack(nowMs, 0) <= v
    && LogicalPart(v) + count <= LOGICALS_PER_MS
  }

  /** A grant takes the cursor exactly to its own end, stays at or above where the
      cursor was, and never leaves the committed window. */
  lemma {:induction false} GrantMovesCursor(st: State, nowMs: nat, count: nat)
    requires WellFormed(st)
    ensures WellFormed(Grant(st, nowMs, count).1)
    ensures Grant(st, nowMs, count).0.Failure? ==> Grant(st, nowMs, count).1 == st
    ensures Grant(st, nowMs, count).0.Success? ==>
              var g := Grant(st, nowMs, count).0.value;
              var after := Grant(st, nowMs, count).1;
              && st.Leader? && after.Leader?
              && g.epoch == st.epoch == after.epoch && after.ceiling == st.ceiling
              && g.count == count >= 1
              && Cursor(st) <= FirstTs(g)
              && Cursor(after) == FirstTs(g) + count
              && FirstTs(g) + count <= (st.ceiling + 1) * LOGICALS_PER_MS
              && ValidRange(TimestampRange(g.physicalMs, g.logicalStart, g.count))
  {
    var (r, after) := Grant(st, nowMs, count);
    if r.Success? {
      var g := r.value;
      if st.nextPhysical < g.physicalMs {
        assert (st.nextPhysical + 1) * LOGICALS_PER_MS <= g.physicalMs * LOGICALS_PER_MS;
      }
      assert (g.physicalMs + 1) * LOGICALS_PER_MS <= (st.ceiling + 1) * LOGICALS_PER_MS;
    }
  }

  /** A grant starts at the earliest place it may, so the only numbers skipped are
      those behind the clock or in a remainder too short for the request. */
  lemma {:induction false} GrantIsEarliest(st: State, nowMs: nat, count: nat, v: nat)
    requires WellFormed(st) && Grant(st, nowMs, count).0.Success?
    ensures MayStartAt(st, nowMs, count, FirstTs(Grant(st, nowMs, count).0.value))
    ensures MayStartAt(st, nowMs, count, v) ==> FirstTs(Grant(st, nowMs, count).0.value) <= v
  {
    var g := Grant(st, nowMs, count).0.value;
    PackIsOrderEmbedding(g.physicalMs, g.logicalStart, g.physicalMs, g.logicalStart);
    GrantMovesCursor(st, nowMs, count);
    assert Pack(nowMs, 0) <= FirstTs(g) by {
      assert nowMs <= g.physicalMs;
      assert nowMs * LOGICALS_PER_MS <= g.physicalMs * LOGICALS_PER_MS;
    }
    if MayStartAt(st, nowMs, count, v) {
      // v lies at or above the millisecond the grant started looking from
      var base := if nowMs > st.nextPhysical then nowMs else st.nextPhysical;
      var p := PhysicalPart(v);
      assert base * LOGICALS_PER_MS <= v;
      assert base <= p;
      if g.physicalMs <= p {
        assert g.physicalMs * LOGICALS_PER_MS <= p * LOGICALS_PER_MS;
      }
    }
  }

  /** A legal start from which `count` timestamps stay at or below the millisecond `top`. */
  predicate FitsUnder(st: State, nowMs: nat, count: nat, top: nat, v: nat)
    requires st.Leader?
  {
    MayStartAt(st, nowMs, count, v) && v + count <= (top + 1) * LOGICALS_PER_MS
  }

  /** Where the projection lands: at the least legal start there is. */
  lemma {:induction false} LandsEarliest(st: State, nowMs: nat, count: nat) returns (p: nat, l: nat)
    requires WellFormed(st) && st.Leader? && CountOk(count)
    ensures MayStartAt(st, nowMs, count, Pack(p, l)) && l + count <= LOGICALS_PER_MS
    ensures forall v: nat :: MayStartAt(st, nowMs, count, v) ==> p <= PhysicalPart(v)
    ensures ProjectGrant(st, nowMs, count) ==
              if p > PHYSICAL_MS_MAX then Failure(PhysicalMsTooLarge(p))
              else if p > st.ceiling then Failure(WindowExhausted) else Success((p, l))
  {
    var base := if nowMs > st.nextPhysical then nowMs else st.nextPhysical;
    var from := if nowMs > st.nextPhysical then 0 else st.nextLogical;
    p, l := if from + count > LOGICALS_PER_MS then base + 1 else base, if from + count > LOGICALS_PER_MS then 0 else from;
    assert nowMs * LOGICALS_PER_MS <= p * LOGICALS_PER_MS;
    assert st.nextPhysical < p ==> (st.nextPhysical + 1) * LOGICALS_PER_MS <= p * LOGICALS_PER_MS;
    assert LogicalPart(Pack(p, l)) == l;
    forall v: nat | MayStartAt(st, nowMs, count, v) ensures p <= PhysicalPart(v) {
      assert base * LOGICALS_PER_MS <= v;
      assert base <= PhysicalPart(v);
    }
  }

  lemma {:induction false} FitsIffBelow(p: nat, l: nat, count: nat, top: nat)
    requires l + count <= LOGICALS_PER_MS && count >= 1
    ensures Pack(p, l) + count <= (top + 1) * LOGICALS_PER_MS <==> p <= top
  {
    if p <= top {
      assert (p + 1) * LOGICALS_PER_MS <= (top + 1) * LOGICALS_PER_MS;
    } else {
      assert (top + 1) * LOGICALS_PER_MS <= p * LOGICALS_PER_MS;
    }
  }

  /** A request is granted exactly when some legal start fits the committed window.  It is
      turned away for good exactly when none fits the 46 bits of milliseconds there are, and
      told that the window is exhausted in between. */
  lemma {:induction false} GrantedIffRoom(st: State, nowMs: nat, count: nat)
    requires WellFormed(st) && st.Leader? && CountOk(count)
    ensures Grant(st, nowMs, count).0.Success? <==> exists v :: FitsUnder(st, nowMs, count, st.ceiling, v)
    ensures Grant(st, nowMs, count).0 == Failure(WindowExhausted) <==>
              && (exists v :: FitsUnder(st, nowMs, count, PHYSICAL_MS_MAX, v))
              && !(exists v :: FitsUnder(st, nowMs, count, st.ceiling, v))
    ensures Grant(st, nowMs, count).0.Failure? ==>
              Grant(st, nowMs, count).0.error.WindowExhausted? || Grant(st, nowMs, count).0.error.PhysicalMsTooLarge?
  {
    var p, l := LandsEarliest(st, nowMs, count);
    RoomIff(st, nowMs, count, st.ceiling, p, l);
    RoomIff(st, nowMs, count, PHYSICAL_MS_MAX, p, l);
  }

  lemma {:induction false} RoomIff(st: State, nowMs: nat, count: nat, top: nat, p: nat, l: nat)
    requires st.Leader? && CountOk(count)
    requires MayStartAt(st, nowMs, count, Pack(p, l)) && l + count <= LOGICALS_PER_MS
    requires forall v: nat :: MayStartAt(st, nowMs, count, v) ==> p <= PhysicalPart(v)
    ensures (exists v :: FitsUnder(st, nowMs, count, top, v)) <==> p <= top
  {
    FitsIffBelow(p, l, count, top);
    if p <= top { assert FitsUnder(st, nowMs, count, top, Pack(p, l)); }
    if v :| FitsUnder(st, nowMs, count, top, v) {
      FitsIffBelow(PhysicalPart(v), LogicalPart(v), count, top);
      assert v == Pack(PhysicalPart(v), LogicalPart(v));
    }
  }

  /** The cursor never runs past the committed window. */
  lemma {:induction false} CursorWithinWindow(st: State)
    requires WellFormed(st) && st.Leader?
    ensures Cursor(st) <= (st.ceiling + 1) * LOGICALS_PER_MS
  {
    if st.nextPhysical <= st.ceiling {
      assert (st.nextPhysical + 1) * LOGICALS_PER_MS <= (st.ceiling + 1) * LOGICALS_PER_MS;
    }
  }

  /** Nothing between the cursor and the ceiling is out of reach: some clock reading and
      some request size make the next grant cover any given value of it. */
  lemma {:induction false} WindowIsServable(st: State, ts: nat) returns (nowMs: nat, count: nat)
    requires WellFormed(st) && st.Leader? && Cursor(st) <= ts < (st.ceiling + 1) * LOGICALS_PER_MS
    ensures Grant(st, nowMs, count).0.Success?
    ensures FirstTs(Grant(st, nowMs, count).0.value) <= ts < FirstTs(Grant(st, nowMs, count).0.value) + count
  {
    var p, l := PhysicalPart(ts), LogicalPart(ts);
    assert ts == p * LOGICALS_PER_MS + l;
    assert p <= st.ceiling && st.nextPhysical <= p;
    if p > st.nextPhysical {
      nowMs, count := p, l + 1;
    } else {
      nowMs, count := 0, l + 1 - st.nextLogical;
    }
  }

  /** One prepare, persist, commit round after an exhausted window makes the retry
      with the same clock sample succeed, whatever the look-ahead, provided the
      driver kept its promise to persist at least what was asked. */
  lemma {:induction false} ExtensionMakesRoom(st: State, nowMs: nat, count: nat, aheadMs: nat, persisted: nat)
    requires WellFormed(st)
    requires Grant(st, nowMs, count).0 == Failure(WindowExhausted)
    requires PrepareExtension(st, nowMs, aheadMs).Success?
    requires PrepareExtension(st, nowMs, aheadMs).value <= persisted <= PHYSICAL_MS_MAX
    ensures st.Leader?
    ensures CommitExtension(st, persisted, st.epoch).0 == Applied(persisted)
    ensures WellFormed(CommitExtension(st, persisted, st.epoch).1)
    ensures Grant(CommitExtension(st, persisted, st.epoch).1, nowMs, count).0.Success?
  {
  }

  // ------------------------------------------------------------------
  // The allocator object
  // ------------------------------------------------------------------

  class Allocator {
    var state: State

    ghost predicate Valid()
      reads this
    {
      WellFormed(state)
    }

    constructor ()
      ensures Valid() && state == NotLeader
    {
      state := NotLeader;
    }

    method BecomeLeader(fenceFloor: nat, committedCeiling: nat, epoch: nat) returns (r: Result<(), CoreError>)
      requires Valid()
      modifies this
      ensures Valid()
      ensures Seed(fenceFloor, committedCeiling, epoch).Success? ==>
                r == Success(()) && state == Seed(fenceFloor, committedCeiling, epoch).value
      ensures Seed(fenceFloor, committedCeiling, epoch).Failure? ==>
                r == Failure(Seed(fenceFloor, committedCeiling, epoch).error) && state == old(state)
      ensures r.Success? <==> fenceFloor <= committedCeiling <= PHYSICAL_MS_MAX
      ensures r.Success? ==> state == Leader(epoch, committedCeiling, fenceFloor, 0)
      ensures r.Failure? ==> (r.error.InvalidLeadershipWindow? <==> committedCeiling < fenceFloor <= PHYSICAL_MS_MAX)
    {
      if fenceFloor > PHYSICAL_MS_MAX { return Failure(PhysicalMsTooLarge(fenceFloor)); }
      if committedCeiling > PHYSICAL_MS_MAX { return Failure(PhysicalMsTooLarge(committedCeiling)); }
      if committedCeiling < fenceFloor { return Failure(InvalidLeadershipWindow(fenceFloor, committedCeiling)); }
      state := Leader(epoch, committedCeiling, fenceFloor, 0);
      return Success(());
    }

    method StepDown()
      modifies this
      ensures Valid() && state == NotLeader
    {
      state := NotLeader;
    }

    method TryGrant(nowMs: nat, count: nat) returns (r: Result<WindowGrant, CoreError>)
      requires Valid()
      modifies this
      ensures Valid()
      ensures (r, state) == Grant(old(state), nowMs, count)
      ensures r.Success? ==> old(state).Leader? && Cursor(old(state)) <= FirstTs(r.value)
                             && Cursor(state) == FirstTs(r.value) + count
      ensures count == 0 || count > LOGICALS_PER_MS <==> r == Failure(InvalidCount(count))
      ensures 1 <= count <= LOGICALS_PER_MS ==> (old(state).NotLeader? <==> r == Failure(NotLeaderError))
    {
      GrantMovesCursor(state, nowMs, count);
      if count == 0 || count > LOGICAL_MAX + 1 { return Failure(InvalidCount(count)); }
      match state {
        case NotLeader => return Failure(NotLeaderError);
        case Leader(epoch, ceiling, nextPhysical, nextLogical) =>
          var physical, logical := nextPhysical, nextLogical;
          if nowMs > physical { physical, logical := nowMs, 0; }
          if logical + count > LOGICAL_MAX + 1 { physical, logical := physical + 1, 0; }
          if physical > PHYSICAL_MS_MAX { return Failure(PhysicalMsTooLarge(physical)); }
          if physical > ceiling { return Failure(WindowExhausted); }
          if logical + count > LOGICAL_MAX {
            state := state.(nextPhysical := physical + 1, nextLogical := 0);
          } else {
            state := state.(nextPhysical := physical, nextLogical := logical + count);
          }
          return Success(WindowGrant(physical, logical, count, epoch));
      }
    }

    /** The extension path's recheck predicts the retry exactly. */
    method WouldGrant(nowMs: nat, count: nat) returns (ok: bool)
      requires Valid()
      ensures ok <==> Grant(state, nowMs, count).0.Success?
    {
      if count == 0 || count > LOGICAL_MAX + 1 { return false; }
      if state.NotLeader? { return false; }
      return ProjectGrant(state, nowMs, count).Success?;
    }

    method TryPrepareWindowExtension(nowMs: nat, aheadMs: nat) returns (r: Result<nat, CoreError>)
      requires Valid()
      ensures r == PrepareExtension(state, nowMs, aheadMs)
      ensures r.Success? ==>
                && state.Leader? && state.ceiling < r.value && nowMs + aheadMs <= r.value
                && (r.value == state.ceiling + 1 + aheadMs || r.value == nowMs + aheadMs)
      ensures r.Success? <==>
                state.Leader? && state.ceiling + 1 + aheadMs <= PHYSICAL_MS_MAX && nowMs + aheadMs <= PHYSICAL_MS_MAX
      ensures r.Failure? ==>
                && (state.NotLeader? <==> r.error.NotLeaderError?)
                && (r.error.WindowExtensionOverflow? <==>
                      && state.Leader? && nowMs <= PHYSICAL_MS_MAX
                      && (state.ceiling + 1 + aheadMs > U64_MAX || nowMs + aheadMs > U64_MAX))
    {
      if state.NotLeader? { return Failure(NotLeaderError); }
      if nowMs > PHYSICAL_MS_MAX { return Failure(PhysicalMsTooLarge(nowMs)); }
      var floor := state.ceiling + 1;
      var requested := (if floor >= nowMs then floor else nowMs) + aheadMs;
      if requested > U64_MAX { return Failure(WindowExtensionOverflow(floor, nowMs, aheadMs)); }
      if requested > PHYSICAL_MS_MAX { return Failure(PhysicalMsTooLarge(requested)); }
      return Success(requested);
    }

    method TryCommitWindowExtension(persisted: nat, expectedEpoch: nat) returns (outcome: CommitOutcome)
      requires Valid() && persisted <= PHYSICAL_MS_MAX
      modifies this
      ensures Valid()
      ensures (outcome, state) == CommitExtension(old(state), persisted, expectedEpoch)
      ensures outcome.Applied? <==> old(state).Leader? && old(state).epoch == expectedEpoch && old(state).ceiling < persisted
      ensures outcome.Applied? ==> outcome.highWater == persisted && state == old(state).(ceiling := persisted)
      ensures outcome.Ignored? ==> state == old(state)
      ensures outcome.Ignored? && old(state).Leader? ==>
                outcome.reason == if old(state).epoch != expectedEpoch then EpochMismatch(expectedEpoch, old(state).epoch)
                                  else NotAdvanced(persisted, old(state).ceiling)
    {
      match state {
        case NotLeader => return Ignored(LostLeadership);
        case Leader(epoch, ceiling, _, _) =>
          if epoch != expectedEpoch { return Ignored(EpochMismatch(expectedEpoch, epoch)); }
          if persisted <= ceiling { return Ignored(NotAdvanced(persisted, ceiling)); }
          state := state.(ceiling := persisted);
          return Applied(persisted);
      }
    }
  }
}
