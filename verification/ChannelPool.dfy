/** The client's channel pool: one lazily dialed cell per endpoint, a cap on cells for
    endpoints the operator did not configure, and the rotating dial order. */
module ChannelPools {
  import opened Wrappers
  import opened Basics
  import opened ClientTypes

  const MAX_HINT_CHANNELS: nat := 8
  const USIZE_VALUES: nat := 0x1_0000_0000_0000_0000

  /** `cell` is the identity of the shared cell; fresh cells get fresh numbers. */
  datatype Slot = Slot(cell: nat, lastUsed: nat)

  type Channels = map<Endpoint, Slot>

  datatype Pool = Pool(channels: Channels, nextCell: nat)

  const EMPTY := Pool(map[], 0)

  function Hinted(configured: seq<Endpoint>, channels: Channels): set<Endpoint> {
    set e | e in channels && e !in configured
  }

  // ------------------------------------------------------------------
  // One lookup, one eviction
  // ------------------------------------------------------------------

  /** The slot table once `endpoint` has been found or added and touched. */
  function Touched(p: Pool, endpoint: Endpoint, now: nat): Channels {
    var cell := if endpoint in p.channels then p.channels[endpoint].cell else p.nextCell;
    p.channels[endpoint := Slot(cell, now)]
  }

  /** `after` is `before` without some hinted slots, none of them `keep`, and each at least
      as long unused as every hinted slot that stayed. */
  ghost predicate Swept(configured: seq<Endpoint>, before: Channels, after: Channels, keep: Endpoint) {
    && after.Keys <= before.Keys && (forall e :: e in after ==> after[e] == before[e])
    && (forall e :: e in before && e !in after ==> e !in configured && e != keep)
    && (forall gone, kept :: gone in before && gone !in after && kept in Hinted(configured, after) && kept != keep ==>
          before[gone].lastUsed <= before[kept].lastUsed)
  }

  lemma {:induction false} SweepOne(configured: seq<Endpoint>, before: Channels, mid: Channels, keep: Endpoint, victim: Endpoint)
    requires Swept(configured, before, mid, keep) && victim in Hinted(configured, mid) - {keep}
    requires forall e :: e in Hinted(configured, mid) - {keep} ==> mid[victim].lastUsed <= mid[e].lastUsed
    ensures Swept(configured, before, mid - {victim}, keep)
    ensures |Hinted(configured, mid - {victim})| == |Hinted(configured, mid)| - 1
  {
    var after := mid - {victim};
    assert Hinted(configured, after) == Hinted(configured, mid) - {victim};
    forall gone, kept | gone in before && gone !in after && kept in Hinted(configured, after) && kept != keep
      ensures before[gone].lastUsed <= before[kept].lastUsed
    {
      assert kept in Hinted(configured, mid) - {keep};
    }
  }

  datatype Op = Lookup(endpoint: Endpoint, now: nat, cell: nat) | Evict(endpoint: Endpoint, cell: nat)

  ghost predicate LookupStep(configured: seq<Endpoint>, s: Pool, t: Pool, endpoint: Endpoint, now: nat, cell: nat) {
    && endpoint in t.channels && t.channels[endpoint] == Slot(cell, now) == Touched(s, endpoint, now)[endpoint]
    && t.nextCell == (if endpoint in s.channels then s.nextCell else s.nextCell + 1)
    && (if endpoint in s.channels then t.channels == Touched(s, endpoint, now)
        else && Swept(configured, Touched(s, endpoint, now), t.channels, endpoint)
             && |Hinted(configured, t.channels)| == Min(|Hinted(configured, Touched(s, endpoint, now))|, MAX_HINT_CHANNELS))
  }

  ghost predicate EvictStep(s: Pool, t: Pool, endpoint: Endpoint, cell: nat) {
    if endpoint in s.channels && s.channels[endpoint].cell == cell
    then t == s.(channels := s.channels - {endpoint}) else t == s
  }

  ghost predicate Step(configured: seq<Endpoint>, s: Pool, t: Pool, op: Op) {
    match op
    case Lookup(endpoint, now, cell) => LookupStep(configured, s, t, endpoint, now, cell)
    case Evict(endpoint, cell) => EvictStep(s, t, endpoint, cell)
  }

  /** Any interleaving of lock-held sections. */
  ghost predicate Run(configured: seq<Endpoint>, states: seq<Pool>, ops: seq<Op>) {
    && |states| == |ops| + 1 && states[0] == EMPTY
    && forall i :: 0 <= i < |ops| ==> Step(configured, states[i], states[i + 1], ops[i])
  }

  ghost predicate PoolInv(configured: seq<Endpoint>, p: Pool) {
    && |Hinted(configured, p.channels)| <= MAX_HINT_CHANNELS
    && (forall e :: e in p.channels ==> p.channels[e].cell < p.nextCell)
    && (forall e, f :: e in p.channels && f in p.channels && p.channels[e].cell == p.channels[f].cell ==> e == f)
  }

  lemma {:induction false} StepKeepsInv(configured: seq<Endpoint>, s: Pool, t: Pool, op: Op)
    requires PoolInv(configured, s) && Step(configured, s, t, op)
    ensures PoolInv(configured, t)
  {
    match op
    case Lookup(endpoint, now, cell) =>
      if endpoint in s.channels {
        assert Hinted(configured, t.channels) == Hinted(configured, s.channels);
      }
    case Evict(endpoint, cell) =>
      SubsetSize(Hinted(configured, t.channels), Hinted(configured, s.channels));
  }

  /** In every reachable state the hinted slots are within the cap, and no two endpoints
      share a cell. */
  lemma {:induction false} RunKeepsInv(configured: seq<Endpoint>, states: seq<Pool>, ops: seq<Op>, i: nat)
    requires Run(configured, states, ops) && i < |states|
    ensures PoolInv(configured, states[i])
  {
    if i > 0 {
      RunKeepsInv(configured, states, ops, i - 1);
      StepKeepsInv(configured, states[i - 1], states[i], ops[i - 1]);
    } else {
      assert Hinted(configured, EMPTY.channels) == {};
    }
  }

  /** So the pool never holds more than the configured endpoints and the cap. */
  lemma {:induction false} PoolIsBounded(configured: seq<Endpoint>, states: seq<Pool>, ops: seq<Op>, i: nat)
    requires Run(configured, states, ops) && i < |states|
    ensures |states[i].channels| <= |configured| + 8
  {
    RunKeepsInv(configured, states, ops, i);
    var keys, hinted := states[i].channels.Keys, Hinted(configured, states[i].channels);
    assert keys == (keys - hinted) + hinted;
    assert keys - hinted <= Members(configured);
    SubsetSize(keys - hinted, Members(configured));
    MembersAtMost(configured);
  }

  /** `cell` can never be handed out again. */
  ghost predicate Retired(p: Pool, cell: nat) {
    cell < p.nextCell && forall e :: e in p.channels ==> p.channels[e].cell != cell
  }

  lemma {:induction false} StaysRetired(configured: seq<Endpoint>, states: seq<Pool>, ops: seq<Op>, i: nat, j: nat, cell: nat)
    requires Run(configured, states, ops) && i <= j < |states| && Retired(states[i], cell)
    ensures Retired(states[j], cell)
    decreases j
  {
    if i < j {
      StaysRetired(configured, states, ops, i, j - 1, cell);
      assert Step(configured, states[j - 1], states[j], ops[j - 1]);
    }
  }

  /** Once a failed channel has been evicted, no later lookup of any endpoint returns it. */
  lemma {:induction false} EvictedNeverReturns(configured: seq<Endpoint>, states: seq<Pool>, ops: seq<Op>, i: nat, j: nat)
    requires Run(configured, states, ops) && i < j < |ops| && ops[i].Evict? && ops[j].Lookup?
    requires ops[i].endpoint in states[i].channels && states[i].channels[ops[i].endpoint].cell == ops[i].cell
    ensures ops[j].cell != ops[i].cell
  {
    RunKeepsInv(configured, states, ops, i);
    assert Step(configured, states[i], states[i + 1], ops[i]);
    StaysRetired(configured, states, ops, i + 1, j, ops[i].cell);
    assert Step(configured, states[j], states[j + 1], ops[j]);
  }

  /** An endpoint's slot keeps its cell for as long as the endpoint has a slot. */
  lemma {:induction false} CellIsKept(configured: seq<Endpoint>, states: seq<Pool>, ops: seq<Op>, e: Endpoint, i: nat, j: nat)
    requires Run(configured, states, ops) && i <= j < |states|
    requires forall k :: i <= k <= j ==> e in states[k].channels
    ensures states[i].channels[e].cell == states[j].channels[e].cell
  {
    if i < j {
      CellIsKept(configured, states, ops, e, i, j - 1);
      assert Step(configured, states[j - 1], states[j], ops[j - 1]);
    }
  }

  /** Only an eviction of its cell takes a configured endpoint's slot away. */
  lemma {:induction false} ConfiguredStays(configured: seq<Endpoint>, states: seq<Pool>, ops: seq<Op>, e: Endpoint, i: nat, j: nat)
    requires Run(configured, states, ops) && i <= j < |states| && e in configured && e in states[i].channels
    requires forall k :: i <= k < j ==> ops[k] != Evict(e, states[i].channels[e].cell)
    ensures forall k :: i <= k <= j ==> e in states[k].channels
    ensures states[j].channels[e].cell == states[i].channels[e].cell
  {
    if i < j {
      ConfiguredStays(configured, states, ops, e, i, j - 1);
      assert Step(configured, states[j - 1], states[j], ops[j - 1]);
    }
  }

  /** Callers share one channel: two lookups of a configured endpoint return the same cell
      exactly when no eviction of that cell came between them. */
  lemma {:induction false} SharedUntilEvicted(configured: seq<Endpoint>, states: seq<Pool>, ops: seq<Op>, i: nat, j: nat)
    requires Run(configured, states, ops) && i < j < |ops| && ops[i].Lookup? && ops[j].Lookup?
    requires ops[i].endpoint == ops[j].endpoint && ops[i].endpoint in configured
    ensures ops[j].cell == ops[i].cell <==> forall k :: i < k < j ==> ops[k] != Evict(ops[i].endpoint, ops[i].cell)
  {
    var e := ops[i].endpoint;
    assert Step(configured, states[i], states[i + 1], ops[i]);
    assert Step(configured, states[j], states[j + 1], ops[j]);
    if forall k :: i < k < j ==> ops[k] != Evict(e, ops[i].cell) {
      ConfiguredStays(configured, states, ops, e, i + 1, j);
    } else {
      var k := FirstEviction(ops, Evict(e, ops[i].cell), i + 1, j);
      ConfiguredStays(configured, states, ops, e, i + 1, k);
      EvictedNeverReturns(configured, states, ops, k, j);
    }
  }

  lemma {:induction false} FirstEviction(ops: seq<Op>, op: Op, i: nat, j: nat) returns (k: nat)
    requires i <= j <= |ops| && exists m :: i <= m < j && ops[m] == op
    ensures i <= k < j && ops[k] == op && forall m :: i <= m < k ==> ops[m] != op
  {
    k := i;
    while ops[k] != op
      invariant i <= k < j && forall m :: i <= m < k ==> ops[m] != op
      decreases j - k
    {
      k := k + 1;
    }
  }

  // ------------------------------------------------------------------
  // Dial order
  // ------------------------------------------------------------------

  function Rotated(configured: seq<Endpoint>, cursor: nat): seq<Endpoint>
    requires configured != []
  {
    configured[cursor % |configured|..] + configured[..cursor % |configured|]
  }

  function Without(s: seq<Endpoint>, leader: Option<Endpoint>): seq<Endpoint> {
    if s == [] then []
    else
      var rest, e := Without(s[..|s| - 1], leader), s[|s| - 1];
      if leader == Some(e) then rest else rest + [e]
  }

  function DialOrder(configured: seq<Endpoint>, leader: Option<Endpoint>, cursor: nat): seq<Endpoint> {
    (if leader.Some? then [leader.value] else []) + (if configured == [] then [] else Without(Rotated(configured, cursor), leader))
  }

  predicate NoDuplicates(s: seq<Endpoint>) { forall i, j :: 0 <= i < j < |s| ==> s[i] != s[j] }

  lemma {:induction false} WithoutKeeps(s: seq<Endpoint>, leader: Option<Endpoint>)
    ensures forall e :: e in Without(s, leader) <==> e in s && leader != Some(e)
  {
    if s != [] {
      var n := |s| - 1;
      WithoutKeeps(s[..n], leader);
      assert s == s[..n] + [s[n]];
    }
  }

  lemma {:induction false} WithoutNobody(s: seq<Endpoint>)
    ensures Without(s, None) == s
  {
    if s != [] {
      WithoutNobody(s[..|s| - 1]);
      assert s == s[..|s| - 1] + [s[|s| - 1]];
    }
  }

  lemma {:induction false} WithoutIsDistinct(s: seq<Endpoint>, leader: Option<Endpoint>)
    requires NoDuplicates(s)
    ensures NoDuplicates(Without(s, leader))
  {
    if s != [] {
      var n := |s| - 1;
      WithoutIsDistinct(s[..n], leader);
      WithoutKeeps(s[..n], leader);
      var rest := Without(s[..n], leader);
      assert s[n] !in s[..n];
      assert forall i :: 0 <= i < |rest| ==> rest[i] in rest;
    }
  }

  lemma {:induction false} MultipleIsLarge(d: int, n: nat)
    ensures d >= 1 ==> d * n >= n
    ensures d <= -1 ==> d * n + n <= 0
  {
    if d >= 1 { assert (d - 1) * n >= 0; }
    if d <= -1 { assert (-d - 1) * n >= 0; }
  }

  /** The remainder is the only one of its kind. */
  lemma {:induction false} ModIs(x: nat, q: int, r: nat, n: nat)
    requires r < n && x == q * n + r
    ensures x % n == r
  {
    var d := q - x / n;
    assert x == (x / n) * n + x % n;
    assert d * n == q * n - (x / n) * n;
    MultipleIsLarge(d, n);
  }

  lemma {:induction false} ModOfSum(a: nat, b: nat, n: nat)
    requires n > 0
    ensures (a + b) % n == (a % n + b) % n
  {
    var s := a % n + b;
    assert (a / n + s / n) * n == (a / n) * n + (s / n) * n;
    ModIs(a + b, a / n + s / n, s % n, n);
  }

  lemma {:induction false} SmallMod(x: nat, n: nat)
    requires x < 2 * n
    ensures x % n == if x < n then x else x - n
  {
    if x < n { ModIs(x, 0, x, n); } else { ModIs(x, 1, x - n, n); }
  }

  lemma {:induction false} RotatedAt(configured: seq<Endpoint>, cursor: nat, p: nat)
    requires p < |configured|
    ensures |Rotated(configured, cursor)| == |configured|
    ensures Rotated(configured, cursor)[p] == configured[(cursor + p) % |configured|]
  {
    ModOfSum(cursor, p, |configured|);
    SmallMod(cursor % |configured| + p, |configured|);
  }

  lemma {:induction false} RotationKeeps(configured: seq<Endpoint>, cursor: nat)
    requires configured != []
    ensures forall e :: e in Rotated(configured, cursor) <==> e in configured
    ensures NoDuplicates(configured) ==> NoDuplicates(Rotated(configured, cursor))
  {
    var o := cursor % |configured|;
    assert configured == configured[..o] + configured[o..];
  }

  /** Every dial order names the fresh leader first and otherwise each configured endpoint
      exactly once. */
  lemma {:induction false} DialOrderIsComplete(configured: seq<Endpoint>, leader: Option<Endpoint>, cursor: nat)
    requires NoDuplicates(configured)
    ensures var order := DialOrder(configured, leader, cursor);
            && NoDuplicates(order)
            && (forall e :: e in order <==> e in configured || leader == Some(e))
            && (leader.Some? ==> order != [] && order[0] == leader.value)
  {
    if configured != [] {
      RotationKeeps(configured, cursor);
      WithoutKeeps(Rotated(configured, cursor), leader);
      WithoutIsDistinct(Rotated(configured, cursor), leader);
    }
  }

  /** `a` comes before `b`. */
  predicate Before(order: seq<Endpoint>, a: Endpoint, b: Endpoint) {
    exists i, j :: 0 <= i < j < |order| && order[i] == a && order[j] == b
  }

  lemma {:induction false} WithoutKeepsOrder(s: seq<Endpoint>, leader: Option<Endpoint>, a: Endpoint, b: Endpoint)
    ensures Before(Without(s, leader), a, b) <==> Before(s, a, b) && leader != Some(a) && leader != Some(b)
  {
    if s != [] {
      var n := |s| - 1;
      WithoutKeepsOrder(s[..n], leader, a, b);
      WithoutKeeps(s[..n], leader);
      assert s == s[..n] + [s[n]];
      BeforeAppend(s[..n], s[n], a, b);
      BeforeAppend(Without(s[..n], leader), s[n], a, b);
    }
  }

  lemma {:induction false} BeforeAppend(s: seq<Endpoint>, e: Endpoint, a: Endpoint, b: Endpoint)
    ensures Before(s + [e], a, b) <==> Before(s, a, b) || (a in s && e == b)
  {
    var t := s + [e];
    if Before(s, a, b) {
      var i, j :| 0 <= i < j < |s| && s[i] == a && s[j] == b;
      assert t[i] == a && t[j] == b;
    }
    if a in s && e == b {
      var i :| 0 <= i < |s| && s[i] == a;
      assert t[i] == a && t[|s|] == b;
    }
    if Before(t, a, b) {
      var i, j :| 0 <= i < j < |t| && t[i] == a && t[j] == b;
      assert s[i] == a;
      if j < |s| { assert s[j] == b; }
    }
  }

  /** Putting the leader first leaves the rotation of the others as it was. */
  lemma {:induction false} LeaderKeepsRotation(configured: seq<Endpoint>, leader: Endpoint, cursor: nat, a: Endpoint, b: Endpoint)
    requires configured != [] && a != leader && b != leader
    ensures Before(DialOrder(configured, Some(leader), cursor), a, b) <==> Before(DialOrder(configured, None, cursor), a, b)
  {
    var rotated := Rotated(configured, cursor);
    WithoutNobody(rotated);
    WithoutKeepsOrder(rotated, Some(leader), a, b);
    assert [] + rotated == rotated;
    BeforeBehind(leader, Without(rotated, Some(leader)), a, b);
  }

  lemma {:induction false} BeforeBehind(e: Endpoint, s: seq<Endpoint>, a: Endpoint, b: Endpoint)
    requires a != e
    ensures Before([e] + s, a, b) <==> Before(s, a, b)
  {
    var t := [e] + s;
    if Before(s, a, b) {
      var i, j :| 0 <= i < j < |s| && s[i] == a && s[j] == b;
      assert t[i + 1] == a && t[j + 1] == b;
    }
    if Before(t, a, b) {
      var i, j :| 0 <= i < j < |t| && t[i] == a && t[j] == b;
      assert s[i - 1] == a && s[j - 1] == b;
    }
  }

  /** The cursor is a machine word: the `c`-th call from `start` reads this. */
  function CursorAt(start: nat, c: nat): nat { (start + c) % USIZE_VALUES }

  /** In the `c`-th leaderless call from `start`, endpoint `i` stands at position `p`. */
  predicate Stands(configured: seq<Endpoint>, start: nat, c: nat, p: nat, i: nat)
    requires i < |configured|
  {
    var order := DialOrder(configured, None, CursorAt(start, c));
    p < |order| && order[p] == configured[i]
  }

  lemma {:induction false} LeaderlessAt(configured: seq<Endpoint>, cursor: nat, p: nat)
    requires p < |configured|
    ensures |DialOrder(configured, None, cursor)| == |configured|
    ensures DialOrder(configured, None, cursor)[p] == configured[(cursor + p) % |configured|]
  {
    RotatedAt(configured, cursor, p);
    WithoutNobody(Rotated(configured, cursor));
    assert [] + Rotated(configured, cursor) == Rotated(configured, cursor);
  }

  /** The call that brings slot `i` round to a place that starts at `start`. */
  function CallFor(start: nat, i: nat, n: nat): (k: nat)
    requires start < n && i < n
    ensures k < n
  {
    if i >= start then i - start else i + n - start
  }

  lemma {:induction false} ComesRoundOnce(a: nat, c: nat, i: nat, n: nat)
    requires c < n && i < n
    ensures (a + c) % n == i <==> c == CallFor(a % n, i, n)
  {
    ModOfSum(a, c, n);
    SmallMod(a % n + c, n);
  }

  /** The cursor's wrap goes unnoticed: it does not happen, or the word is a whole number of rounds. */
  predicate WrapsEvenly(n: nat, start: nat)
    requires n > 0
  {
    start + n <= USIZE_VALUES || USIZE_VALUES % n == 0
  }

  lemma {:induction false} EvenCursor(n: nat, start: nat, c: nat)
    requires 0 < n <= USIZE_VALUES && start < USIZE_VALUES && c < n && WrapsEvenly(n, start)
    ensures CursorAt(start, c) % n == (start + c) % n
  {
    SmallMod(start + c, USIZE_VALUES);
    if start + c >= USIZE_VALUES {
      var rest := start + c - USIZE_VALUES;
      ModOfSum(USIZE_VALUES, rest, n);
    }
  }

  lemma {:induction false} StandsWhen(configured: seq<Endpoint>, start: nat, c: nat, p: nat, i: nat)
    requires NoDuplicates(configured) && i < |configured| && p < |configured| && c < |configured|
    requires |configured| <= USIZE_VALUES && start < USIZE_VALUES && WrapsEvenly(|configured|, start)
    ensures Stands(configured, start, c, p, i) <==> c == CallFor((start + p) % |configured|, i, |configured|)
  {
    var n, cursor := |configured|, CursorAt(start, c);
    LeaderlessAt(configured, cursor, p);
    EvenCursor(n, start, c);
    ModOfSum(cursor, p, n);
    ModOfSum(start + c, p, n);
    assert start + c + p == start + p + c;
    ComesRoundOnce(start + p, c, i, n);
    var slot := (cursor + p) % n;
    assert slot == (start + p + c) % n;
    assert configured[slot] == configured[i] <==> slot == i;
  }

  /** Of as many calls as there are endpoints, `k` is the one in which endpoint `i` stands at
      position `p`. */
  ghost predicate OnlyCall(configured: seq<Endpoint>, start: nat, p: nat, i: nat, k: nat)
    requires i < |configured|
  {
    k < |configured| && forall c: nat :: c < |configured| ==> (Stands(configured, start, c, p, i) <==> c == k)
  }

  ghost predicate StandsOnce(configured: seq<Endpoint>, start: nat, p: nat, i: nat)
    requires i < |configured|
  {
    exists k: nat :: OnlyCall(configured, start, p, i, k)
  }

  ghost predicate Fair(configured: seq<Endpoint>, start: nat) {
    forall p: nat, i: nat :: p < |configured| && i < |configured| ==> StandsOnce(configured, start, p, i)
  }

  lemma {:induction false} EvenStandsOnce(configured: seq<Endpoint>, start: nat, p: nat, i: nat)
    requires NoDuplicates(configured) && |configured| <= USIZE_VALUES && start < USIZE_VALUES
    requires p < |configured| && i < |configured| && WrapsEvenly(|configured|, start)
    ensures StandsOnce(configured, start, p, i)
  {
    var k := CallFor((start + p) % |configured|, i, |configured|);
    forall c: nat | c < |configured| ensures Stands(configured, start, c, p, i) <==> c == k {
      StandsWhen(configured, start, c, p, i);
    }
    assert OnlyCall(configured, start, p, i, k);
  }

  lemma {:induction false} EvenIsFair(configured: seq<Endpoint>, start: nat)
    requires NoDuplicates(configured) && 0 < |configured| <= USIZE_VALUES && start < USIZE_VALUES
    requires WrapsEvenly(|configured|, start)
    ensures Fair(configured, start)
  {
    forall p: nat, i: nat | p < |configured| && i < |configured| ensures StandsOnce(configured, start, p, i) {
      EvenStandsOnce(configured, start, p, i);
    }
  }

  /** An uneven wrap makes two of the calls start at the same endpoint. */
  lemma {:induction false} UnevenRepeats(n: nat, start: nat) returns (c: nat, d: nat)
    requires 0 < n <= USIZE_VALUES && start < USIZE_VALUES && !WrapsEvenly(n, start)
    ensures c < n && d < n && c != d && CursorAt(start, c) % n == CursorAt(start, d) % n
  {
    var left, r, q := USIZE_VALUES - start, USIZE_VALUES % n, USIZE_VALUES / n;
    assert USIZE_VALUES == q * n + r;
    if r <= left {
      c, d := left - r, left;
      SmallMod(start + c, USIZE_VALUES);
      ModIs(USIZE_VALUES, 1, 0, USIZE_VALUES);
      ModIs(USIZE_VALUES - r, q, 0, n);
      ModIs(0, 0, 0, n);
    } else {
      c, d := 0, r;
      SmallMod(start, USIZE_VALUES);
      SmallMod(start + r, USIZE_VALUES);
      ModIs(start, q, r - left, n);
      ModIs(r - left, 0, r - left, n);
    }
  }

  lemma {:induction false} RepeatIsUnfair(configured: seq<Endpoint>, start: nat, c: nat, d: nat)
    requires c < |configured| && d < |configured| && c != d
    requires CursorAt(start, c) % |configured| == CursorAt(start, d) % |configured|
    ensures !Fair(configured, start)
  {
    var i := CursorAt(start, c) % |configured|;
    LeaderlessAt(configured, CursorAt(start, c), 0);
    LeaderlessAt(configured, CursorAt(start, d), 0);
    assert Stands(configured, start, c, 0, i) && Stands(configured, start, d, 0, i);
    assert !StandsOnce(configured, start, 0, i);
  }

  /** Fairness of the rotation: over as many consecutive leaderless calls as there are
      endpoints each endpoint stands at each position exactly once, if and only if the
      64-bit cursor does not wrap among them or the number of endpoints divides 2^64. */
  lemma {:induction false} FairIffWrapsEvenly(configured: seq<Endpoint>, start: nat)
    requires NoDuplicates(configured) && 0 < |configured| <= USIZE_VALUES && start < USIZE_VALUES
    ensures Fair(configured, start) <==> WrapsEvenly(|configured|, start)
  {
    if WrapsEvenly(|configured|, start) {
      EvenIsFair(configured, start);
    } else {
      var c, d := UnevenRepeats(|configured|, start);
      RepeatIsUnfair(configured, start, c, d);
    }
  }

  // ------------------------------------------------------------------
  // The pool itself
  // ------------------------------------------------------------------

  class ChannelPool {
    const configured: seq<Endpoint>
    var channels: Channels
    var nextCell: nat
    var rotation: nat

    ghost function View(): Pool
      reads this
    {
      Pool(channels, nextCell)
    }

    constructor (configured: seq<Endpoint>, seed: nat)
      requires seed < USIZE_VALUES
      ensures this.configured == configured && View() == EMPTY && rotation == seed
    {
      this.configured := configured;
      channels, nextCell, rotation := map[], 0, seed;
    }

    /** The least recently used of some slots; ties are broken arbitrarily. */
    method LeastRecentlyUsed(candidates: set<Endpoint>) returns (victim: Endpoint)
      requires candidates != {} && candidates <= channels.Keys
      ensures victim in candidates && forall e :: e in candidates ==> channels[victim].lastUsed <= channels[e].lastUsed
    {
      victim :| victim in candidates;
      var rest := candidates - {victim};
      while rest != {}
        invariant rest <= candidates && victim in candidates
        invariant forall e :: e in candidates - rest ==> channels[victim].lastUsed <= channels[e].lastUsed
        decreases |rest|
      {
        var e :| e in rest;
        if channels[e].lastUsed < channels[victim].lastUsed { victim := e; }
        rest := rest - {e};
      }
    }

    /** Evict hinted slots, oldest first, until the cap holds. */
    method EnforceHintCap(keep: Endpoint)
      requires keep in channels
      modifies `channels
      ensures Swept(configured, old(channels), channels, keep)
      ensures |Hinted(configured, channels)| == Min(|Hinted(configured, old(channels))|, MAX_HINT_CHANNELS)
      ensures |Hinted(configured, old(channels))| <= MAX_HINT_CHANNELS ==> channels == old(channels)
    {
      while |Hinted(configured, channels)| > MAX_HINT_CHANNELS
        invariant keep in channels && Swept(configured, old(channels), channels, keep)
        invariant |Hinted(configured, old(channels))| <= MAX_HINT_CHANNELS ==> channels == old(channels)
        invariant |Hinted(configured, channels)| >= Min(|Hinted(configured, old(channels))|, MAX_HINT_CHANNELS)
        decreases |channels|
      {
        var candidates := Hinted(configured, channels) - {keep};
        SubsetSize(Hinted(configured, channels), candidates + {keep});
        var victim := LeastRecentlyUsed(candidates);
        SweepOne(configured, old(channels), channels, keep, victim);
        channels := channels - {victim};
      }
    }

    /** The lock-held part of handing out a channel. */
    method Find(endpoint: Endpoint, now: nat) returns (cell: nat)
      modifies `channels, `nextCell
      ensures PoolInv(configured, old(View())) ==> PoolInv(configured, View())
      ensures LookupStep(configured, old(View()), View(), endpoint, now, cell)
    {
      ghost var s := View();
      var inserted := endpoint !in channels;
      if inserted {
        channels := channels[endpoint := Slot(nextCell, now)];
        nextCell := nextCell + 1;
      }
      channels := channels[endpoint := channels[endpoint].(lastUsed := now)];
      cell := channels[endpoint].cell;
      assert channels == Touched(s, endpoint, now);
      if inserted { EnforceHintCap(endpoint); }
      assert LookupStep(configured, s, View(), endpoint, now, cell);
      if PoolInv(configured, s) { StepKeepsInv(configured, s, View(), Lookup(endpoint, now, cell)); }
    }

    /** Drop a slot, but only while it still holds the cell that failed. */
    method EvictIfCurrent(endpoint: Endpoint, cell: nat)
      modifies `channels
      ensures EvictStep(old(View()), View(), endpoint, cell)
    {
      if endpoint in channels && channels[endpoint].cell == cell {
        channels := channels - {endpoint};
      }
    }

    /** The next dial order.  The cursor is a machine word and wraps. */
    method IterRoundRobin(leader: Option<Endpoint>) returns (endpoints: seq<Endpoint>)
      requires rotation < USIZE_VALUES
      modifies `rotation
      ensures endpoints == DialOrder(configured, leader, old(rotation))
      ensures rotation == if configured == [] then old(rotation) else CursorAt(old(rotation), 1)
      ensures rotation < USIZE_VALUES
    {
      var first: seq<Endpoint> := if leader.Some? then [leader.value] else [];
      if configured == [] { return first; }
      var offset := rotation % |configured|;
      rotation := (rotation + 1) % USIZE_VALUES;
      var tail := configured[offset..] + configured[..offset];
      var rest: seq<Endpoint> := [];
      for i := 0 to |tail|
        invariant rest == Without(tail[..i], leader)
      {
        assert tail[..i + 1][..i] == tail[..i];
        if leader != Some(tail[i]) { rest := rest + [tail[i]]; }
      }
      assert tail[..|tail|] == tail;
      endpoints := first + rest;
    }
  }
}
