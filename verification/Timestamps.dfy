/** The packed timestamp layout of tsoracle-core and the wire range that the
    client decodes from a GetTs reply.

    A timestamp is 46 bits of physical milliseconds above 18 bits of logical
    counter.  The shift-and-or of the source is written as multiplication and
    addition, which agree while the logical part stays below 2^18. */
module Timestamps {
  import opened Wrappers

  const LOGICALS_PER_MS: nat := 0x4_0000
  const LOGICAL_MAX: nat := LOGICALS_PER_MS - 1
  const PHYSICAL_MS_MAX: nat := 0x3FFF_FFFF_FFFF
  const MAX_TIMESTAMPS_PER_RPC: nat := LOGICAL_MAX + 1
  const U32_MAX: nat := 0xFFFF_FFFF
  const U64_MAX: nat := 0xFFFF_FFFF_FFFF_FFFF

  datatype PackError =
    | PhysicalMsOutOfRange(physicalMs: nat)
    | LogicalOutOfRange(logical: nat)

  function Pack(physicalMs: nat, logical: nat): nat {
    physicalMs * LOGICALS_PER_MS + logical
  }

  function TryPack(physicalMs: nat, logical: nat): Result<nat, PackError> {
    if physicalMs > PHYSICAL_MS_MAX then Failure(PhysicalMsOutOfRange(physicalMs))
    else if logical > LOGICAL_MAX then Failure(LogicalOutOfRange(logical))
    else Success(Pack(physicalMs, logical))
  }

  function PhysicalPart(ts: nat): nat { ts / LOGICALS_PER_MS }

  function LogicalPart(ts: nat): nat { ts % LOGICALS_PER_MS }

  /** Packing loses nothing, fits 64 bits, and numeric order on packed values is
      lexicographic order on the pair. */
  lemma {:induction false} PackIsOrderEmbedding(p1: nat, l1: nat, p2: nat, l2: nat)
    requires TryPack(p1, l1).Success? && TryPack(p2, l2).Success?
    ensures PhysicalPart(Pack(p1, l1)) == p1 && LogicalPart(Pack(p1, l1)) == l1
    ensures Pack(p1, l1) <= U64_MAX
    ensures Pack(p1, l1) < Pack(p2, l2) <==> p1 < p2 || (p1 == p2 && l1 < l2)
  {
    if p1 < p2 {
      assert (p1 + 1) * LOGICALS_PER_MS <= p2 * LOGICALS_PER_MS;
    } else if p2 < p1 {
      assert (p2 + 1) * LOGICALS_PER_MS <= p1 * LOGICALS_PER_MS;
    }
  }

  /** The two fields are 46 and 18 bits wide, and a pair is refused for the first of them
      that does not fit. */
  lemma {:induction false} PacksIffFits(physicalMs: nat, logical: nat)
    ensures TryPack(physicalMs, logical).Success? <==> physicalMs < 0x4000_0000_0000 && logical < 0x4_0000
    ensures physicalMs >= 0x4000_0000_0000 ==> TryPack(physicalMs, logical) == Failure(PhysicalMsOutOfRange(physicalMs))
    ensures physicalMs < 0x4000_0000_0000 && logical >= 0x4_0000 ==> TryPack(physicalMs, logical) == Failure(LogicalOutOfRange(logical))
  {
  }

  /** Every 64-bit value is some packed pair: taking it apart and packing it gives it back. */
  lemma {:induction false} UnpackThenPack(ts: nat)
    requires ts <= 0xFFFF_FFFF_FFFF_FFFF
    ensures TryPack(PhysicalPart(ts), LogicalPart(ts)) == Success(ts)
  {
  }

  // ------------------------------------------------------------------
  // The GetTs reply
  // ------------------------------------------------------------------

  datatype GetTsResponse = GetTsResponse(physicalMs: nat, logicalStart: nat, count: nat)

  datatype TimestampRange = TimestampRange(physicalMs: nat, logicalStart: nat, count: nat)

  datatype DecodeError =
    | CountMismatch
    | CountOutOfRange
    | LogicalOverflow
    | InvalidFields

  /** What every range handed to the driver satisfies: each of its timestamps packs. */
  predicate ValidRange(r: TimestampRange) {
    && 1 <= r.count <= MAX_TIMESTAMPS_PER_RPC
    && r.physicalMs <= PHYSICAL_MS_MAX
    && r.logicalStart + r.count - 1 <= LOGICAL_MAX
  }

  function First(r: TimestampRange): nat { Pack(r.physicalMs, r.logicalStart) }

  /** The wire fields are u64, u32 and u32. */
  predicate WireFields(resp: GetTsResponse) {
    resp.physicalMs <= U64_MAX && resp.logicalStart <= U32_MAX && resp.count <= U32_MAX
  }

  function DecodeGetTsResponse(resp: GetTsResponse, requested: nat): (r: Result<TimestampRange, DecodeError>)
    requires WireFields(resp)
    ensures r.Success? ==> ValidRange(r.value) && r.value.count == requested
    ensures r.Success? ==> r.value.physicalMs == resp.physicalMs && r.value.logicalStart == resp.logicalStart
    ensures r.Success? <==>
              && resp.count == requested
              && ValidRange(TimestampRange(resp.physicalMs, resp.logicalStart, resp.count))
    ensures r.Success? ==> First(r.value) + r.value.count - 1 <= U64_MAX
  {
    if resp.count != requested then Failure(CountMismatch)
    else if resp.count == 0 || resp.count > MAX_TIMESTAMPS_PER_RPC then Failure(CountOutOfRange)
    else if resp.logicalStart + (resp.count - 1) > U32_MAX
            || resp.logicalStart + (resp.count - 1) > LOGICAL_MAX then Failure(LogicalOverflow)
    else if TryPack(resp.physicalMs, resp.logicalStart).Failure? then Failure(InvalidFields)
    else Success(TimestampRange(resp.physicalMs, resp.logicalStart, resp.count))
  }

  /** The timestamps of a range, packed one by one as the iterator does. */
  function Iterate(r: TimestampRange): seq<int> {
    seq(r.count, i requires 0 <= i < r.count => Pack(r.physicalMs, r.logicalStart + i))
  }

  /** A half-open run of consecutive packed values. */
  function Consecutive(first: int, count: nat): seq<int> {
    seq(count, i requires 0 <= i < count => first + i)
  }

  lemma {:induction false} IterateIsConsecutive(r: TimestampRange)
    requires ValidRange(r)
    ensures Iterate(r) == Consecutive(First(r), r.count)
    ensures forall i :: 0 <= i < r.count ==> TryPack(r.physicalMs, r.logicalStart + i) == Success(Iterate(r)[i])
  {
    forall i | 0 <= i < r.count
      ensures Iterate(r)[i] == Consecutive(First(r), r.count)[i]
      ensures TryPack(r.physicalMs, r.logicalStart + i) == Success(Iterate(r)[i])
    {
      assert Iterate(r)[i] == Pack(r.physicalMs, r.logicalStart + i);
    }
  }
}
