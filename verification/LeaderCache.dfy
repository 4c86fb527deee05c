/** The client's cached leader: a register that only moves forward in epoch while its
    entry is fresh, and the classification of NOT_LEADER replies that feeds it. */
module LeaderCaches {
  import opened Wrappers
  import opened ClientTypes

  datatype CachedLeader = CachedLeader(endpoint: Endpoint, epoch: Option<nat>, lastUsed: nat)

  /** A `Confirmed` seat follows a succeeded RPC, a `Hinted` one a peer's claim. */
  datatype Source = Confirmed | Hinted

  datatype Config = Config(configured: seq<Endpoint>, ttl: nat, tlsRequired: bool)

  function MergeEpochForward(cached: Option<nat>, incoming: Option<nat>): Option<nat> {
    match (cached, incoming)
    case (Some(c), Some(i)) => Some(if c >= i then c else i)
    case (Some(c), None) => Some(c)
    case (None, _) => incoming
  }

  predicate Fresh(cfg: Config, cached: CachedLeader, now: nat) { now < cached.lastUsed + cfg.ttl }

  /** Whether a write for another endpoint may unseat a fresh entry. */
  predicate Outranks(cfg: Config, cached: CachedLeader, endpoint: Endpoint, epoch: Option<nat>, source: Source) {
    match (cached.epoch, epoch)
    case (Some(c), Some(i)) => i >= c
    case (Some(_), None) => source.Hinted? && endpoint in cfg.configured
    case (None, _) => source.Hinted?
  }

  /** The single writer's rule: the cache it leaves, and whether it seated the endpoint. */
  function Seat(cfg: Config, cache: Option<CachedLeader>, now: nat, endpoint: Endpoint, epoch: Option<nat>, source: Source)
    : (Option<CachedLeader>, bool)
  {
    if cache.Some? && cache.value.endpoint == endpoint then
      (Some(CachedLeader(endpoint, MergeEpochForward(cache.value.epoch, epoch), now)), true)
    else if cache.Some? && Fresh(cfg, cache.value, now) && !Outranks(cfg, cache.value, endpoint, epoch, source) then
      (cache, false)
    else
      (Some(CachedLeader(endpoint, epoch, now)), true)
  }

  /** Why a NOT_LEADER reply leads where it does. */
  datatype Verdict = Follow(endpoint: Endpoint, epoch: Option<nat>) | NoLeaderKnown | StaleHint | RejectedHint

  predicate StartsWith(s: string, prefix: string) { prefix <= s }

  predicate RejectsPlaintext(cfg: Config, hint: Endpoint) { cfg.tlsRequired && StartsWith(hint, "http://") }

  /** The endpoint a trailer usably names, if any. */
  function UsableHint(cfg: Config, lookup: HintLookup): Option<Endpoint> {
    if lookup.Decoded? && lookup.endpoint.Some? && !RejectsPlaintext(cfg, lookup.endpoint.value)
    then lookup.endpoint else None
  }

  class LeaderCache {
    const cfg: Config
    var leader: Option<CachedLeader>

    constructor (cfg: Config)
      ensures this.cfg == cfg && leader == None
    {
      this.cfg := cfg;
      leader := None;
    }

    method SeatLeader(now: nat, endpoint: Endpoint, epoch: Option<nat>, source: Source) returns (seated: bool)
      modifies this
      ensures (leader, seated) == Seat(cfg, old(leader), now, endpoint, epoch, source)
      ensures seated ==> leader.Some? && leader.value.endpoint == endpoint && leader.value.lastUsed == now
      ensures !seated ==> leader == old(leader)
    {
      match leader {
        case Some(cached) =>
          if cached.endpoint == endpoint {
            leader := Some(CachedLeader(endpoint, MergeEpochForward(cached.epoch, epoch), now));
            return true;
          }
          if now < cached.lastUsed + cfg.ttl {
            var accept;
            match (cached.epoch, epoch) {
              case (Some(cachedEpoch), Some(incoming)) => accept := incoming >= cachedEpoch;
              case (Some(_), None) =>
                match source {
                  case Hinted => accept := endpoint in cfg.configured;
                  case Confirmed => accept := false;
                }
              case (None, _) =>
                match source {
                  case Hinted => accept := true;
                  case Confirmed => accept := false;
                }
            }
            if accept { leader := Some(CachedLeader(endpoint, epoch, now)); }
            return accept;
          }
          leader := Some(CachedLeader(endpoint, epoch, now));
          return true;
        case None =>
          leader := Some(CachedLeader(endpoint, epoch, now));
          return true;
      }
    }

    /** The leader to dial first: the cached one while its time has not run out. */
    method FreshLeader(now: nat) returns (endpoint: Option<Endpoint>)
      ensures endpoint.Some? <==> leader.Some? && now < leader.value.lastUsed + cfg.ttl
      ensures endpoint.Some? ==> endpoint.value == leader.value.endpoint
    {
      if leader.Some? && now < leader.value.lastUsed + cfg.ttl { return Some(leader.value.endpoint); }
      return None;
    }

    /** A NOT_LEADER reply: the cache is written only for a usable hint, under the same
        rule that decides whether the hint is followed. */
    method ClassifyNotLeaderHint(now: nat, lookup: HintLookup) returns (verdict: Verdict)
      modifies this
      ensures lookup.Absent? <==> verdict.NoLeaderKnown?
      ensures verdict.RejectedHint? <==> !lookup.Absent? && UsableHint(cfg, lookup).None?
      ensures verdict.RejectedHint? <==>
                || lookup.Malformed? || (lookup.Decoded? && lookup.endpoint.None?)
                || (lookup.Decoded? && cfg.tlsRequired && "http://" <= lookup.endpoint.value)
      ensures verdict.Follow? <==>
                && UsableHint(cfg, lookup).Some?
                && Seat(cfg, old(leader), now, UsableHint(cfg, lookup).value, lookup.epoch, Hinted).1
      ensures verdict.Follow? ==>
                && verdict == Follow(UsableHint(cfg, lookup).value, lookup.epoch)
                && leader.Some? && leader.value.endpoint == verdict.endpoint && leader.value.lastUsed == now
      ensures !verdict.Follow? ==> leader == old(leader)
      ensures verdict.Follow? ==> leader == Seat(cfg, old(leader), now, verdict.endpoint, verdict.epoch, Hinted).0
    {
      match lookup {
        case Absent => return NoLeaderKnown;
        case Malformed => return RejectedHint;
        case Decoded(None, _) => return RejectedHint;
        case Decoded(Some(hinted), epoch) =>
          if RejectsPlaintext(cfg, hinted) { return RejectedHint; }
          var seated := SeatLeader(now, hinted, epoch, Hinted);
          if seated { return Follow(hinted, epoch); }
          return StaleHint;
      }
    }
  }

  // ------------------------------------------------------------------
  // Runs of writes
  // ------------------------------------------------------------------

  datatype Write = Write(at: nat, endpoint: Endpoint, epoch: Option<nat>, source: Source)

  function Step(cfg: Config, cache: Option<CachedLeader>, w: Write): Option<CachedLeader> {
    Seat(cfg, cache, w.at, w.endpoint, w.epoch, w.source).0
  }

  function Run(cfg: Config, writes: seq<Write>): Option<CachedLeader> {
    if writes == [] then None else Step(cfg, Run(cfg, writes[..|writes| - 1]), writes[|writes| - 1])
  }

  /** Every write carries an epoch, and none found the entry expired. */
  predicate UnexpiredEpochRun(cfg: Config, writes: seq<Write>) {
    writes == [] ||
    var before, w := writes[..|writes| - 1], writes[|writes| - 1];
    && UnexpiredEpochRun(cfg, before)
    && w.epoch.Some?
    && (Run(cfg, before).Some? ==> Fresh(cfg, Run(cfg, before).value, w.at))
  }

  /** The (endpoint, epoch) pairs some write claimed. */
  function Claims(writes: seq<Write>): set<(Endpoint, Option<nat>)> {
    if writes == [] then {}
    else Claims(writes[..|writes| - 1]) + {(writes[|writes| - 1].endpoint, writes[|writes| - 1].epoch)}
  }

  /** A claim at the highest epoch of a set of claims. */
  ghost predicate IsHighest(claims: set<(Endpoint, Option<nat>)>, c: (Endpoint, Option<nat>)) {
    c in claims && c.1.Some? && forall d :: d in claims && d.1.Some? ==> d.1.value <= c.1.value
  }

  /** Without expiry, the cache holds a claim made at the highest epoch seen. */
  lemma {:induction false} HighestEpochWins(cfg: Config, writes: seq<Write>)
    requires writes != [] && UnexpiredEpochRun(cfg, writes)
    ensures Run(cfg, writes).Some?
    ensures IsHighest(Claims(writes), (Run(cfg, writes).value.endpoint, Run(cfg, writes).value.epoch))
  {
    var before := writes[..|writes| - 1];
    if before != [] {
      HighestEpochWins(cfg, before);
    } else {
      assert Claims(before) == {};
    }
  }

  /** When the highest epoch names one endpoint, every arrival order of the same claims,
      with any duplicates, leaves the cache at that endpoint and epoch. */
  lemma {:induction false} ArrivalOrderIrrelevant(cfg: Config, w1: seq<Write>, w2: seq<Write>)
    requires w1 != [] && UnexpiredEpochRun(cfg, w1)
    requires w2 != [] && UnexpiredEpochRun(cfg, w2)
    requires Claims(w1) == Claims(w2)
    requires forall c, d :: IsHighest(Claims(w1), c) && IsHighest(Claims(w1), d) ==> c == d
    ensures Run(cfg, w1).Some? && Run(cfg, w2).Some?
    ensures Run(cfg, w1).value.endpoint == Run(cfg, w2).value.endpoint
    ensures Run(cfg, w1).value.epoch == Run(cfg, w2).value.epoch
  {
    HighestEpochWins(cfg, w1);
    HighestEpochWins(cfg, w2);
    var c := (Run(cfg, w1).value.endpoint, Run(cfg, w1).value.epoch);
    var d := (Run(cfg, w2).value.endpoint, Run(cfg, w2).value.epoch);
    assert IsHighest(Claims(w1), c) && IsHighest(Claims(w1), d);
  }

  /** When a write for another endpoint unseats a fresh entry.  A server that answered proves
      its claim only by an epoch no lower than a known one; a peer's hint also does where no
      epoch is known, and, without an epoch of its own, where it names a configured endpoint. */
  lemma {:induction false} FreshEntryYieldsIff(cfg: Config, cached: CachedLeader, w: Write)
    requires w.at < cached.lastUsed + cfg.ttl && w.endpoint != cached.endpoint
    ensures var after := Step(cfg, Some(cached), w);
            var proves := cached.epoch.Some? && w.epoch.Some? && w.epoch.value >= cached.epoch.value;
            && after == (if after.value.endpoint == w.endpoint then Some(CachedLeader(w.endpoint, w.epoch, w.at)) else Some(cached))
            && (w.source.Confirmed? ==> (after.value.endpoint == w.endpoint <==> proves))
            && (w.source.Hinted? ==>
                  (after.value.endpoint == w.endpoint <==>
                     proves || cached.epoch.None? || (w.epoch.None? && w.endpoint in cfg.configured)))
  {
  }

  /** A write for the cached endpoint itself refreshes the entry, whatever its age, and never
      loses a known epoch; a write that finds no entry, or an expired one, is taken as it is. */
  lemma {:induction false} OwnOrAbsentEntry(cfg: Config, cache: Option<CachedLeader>, w: Write)
    requires cache.None? || cache.value.endpoint == w.endpoint || w.at >= cache.value.lastUsed + cfg.ttl
    ensures var after := Step(cfg, cache, w);
            && after.Some? && after.value.endpoint == w.endpoint && after.value.lastUsed == w.at
            && (cache.Some? && cache.value.endpoint == w.endpoint ==>
                  && EpochAtMost(cache.value.epoch, after.value.epoch) && EpochAtMost(w.epoch, after.value.epoch)
                  && (after.value.epoch == cache.value.epoch || after.value.epoch == w.epoch))
            && (cache.None? || cache.value.endpoint != w.endpoint ==> after.value.epoch == w.epoch)
  {
  }

  /** The only writes that may take a known epoch back: one that finds the entry expired,
      and an epoch-less hint to another configured endpoint. */
  predicate MayRegress(cfg: Config, cache: Option<CachedLeader>, w: Write) {
    && cache.Some? && cache.value.endpoint != w.endpoint
    && (|| !Fresh(cfg, cache.value, w.at)
        || (w.epoch.None? && w.source.Hinted? && w.endpoint in cfg.configured))
  }

  /** Epoch order with "unknown" lowest. */
  predicate EpochAtMost(a: Option<nat>, b: Option<nat>) {
    a.None? || (b.Some? && a.value <= b.value)
  }

  function CachedEpoch(cache: Option<CachedLeader>): Option<nat> {
    if cache.Some? then cache.value.epoch else None
  }

  /** A single write lowers the cached epoch exactly when it may regress and carries less. */
  lemma {:induction false} RegressionExactly(cfg: Config, cache: Option<CachedLeader>, w: Write)
    ensures !EpochAtMost(CachedEpoch(cache), CachedEpoch(Step(cfg, cache, w)))
            <==> MayRegress(cfg, cache, w) && !EpochAtMost(CachedEpoch(cache), w.epoch)
  {
  }

  /** Between such writes the cached epoch never moves back, over any stretch of any run. */
  lemma {:induction false} EpochMonotoneBetweenResets(cfg: Config, writes: seq<Write>, i: nat)
    requires i <= |writes|
    requires forall k :: i <= k < |writes| ==> !MayRegress(cfg, Run(cfg, writes[..k]), writes[k])
    ensures EpochAtMost(CachedEpoch(Run(cfg, writes[..i])), CachedEpoch(Run(cfg, writes)))
    decreases |writes|
  {
    if i == |writes| {
      assert writes[..i] == writes;
    } else {
      var n := |writes| - 1;
      var before := writes[..n];
      assert forall k :: 0 <= k <= n ==> before[..k] == writes[..k];
      EpochMonotoneBetweenResets(cfg, before, i);
      RegressionExactly(cfg, Run(cfg, before), writes[n]);
    }
  }
}
