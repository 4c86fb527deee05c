/** The retry loops' common discipline: passes over a worklist, leader-hint pivots under
    a per-pass and a whole-call cap, a failed-attempt cap, election ride-out, deadlines.

    A trace is the sequence of dials a call made.  `LoopAfter` replays a trace into the
    loop's variables and `Legal` says which dials the loop may add to it; the loops below
    and in `SeqRetry` are proved to produce legal traces only, and the lemmas here say
    what holds of every legal trace. */
module Retry {
  import opened Wrappers
  import opened Basics
  import opened ClientTypes
  import opened Budgets
  import opened Worklists

  const MAX_LEADER_REDIRECTS: nat := 16
  const MAX_TOTAL_LEADER_REDIRECTS: nat := MAX_LEADER_REDIRECTS * 4

  /** An attempt's outcome, as the loop dispatches on it.  Only the dense path can end
      a call as `Uncertain`. */
  datatype Outcome<R> =
    | Ok(result: R)
    | Hint(hinted: Endpoint)
    | NoLeaderYet(status: NotLeaderStatus)
    | Unusable(why: NotLeaderStatus, stale: bool)
    | Err(err: AttemptError)
    | Uncertain

  predicate Terminal<R>(o: Outcome<R>) { o.Ok? || o.Uncertain? }

  /** One dial of the trace.  `recorded` is the error the loop stored for it and
      `signalled` says that it was taken as a sign of an election in progress. */
  datatype Dial<R> = Dial(
    pass: nat, endpoint: Endpoint, startedAt: nat, budget: nat, endedAt: nat, wokeAt: nat,
    outcome: Outcome<R>, recorded: Option<ClientError>, signalled: bool)

  predicate Followed<R>(d: Dial<R>) { d.outcome.Hint? && d.recorded.None? }

  /** What the loop stores for each outcome. */
  predicate WellRecorded<R>(d: Dial<R>) {
    match d.outcome
    case Ok(_) => d.recorded.None? && !d.signalled
    case Uncertain => d.recorded.None? && !d.signalled
    case Hint(_) => d.recorded == Some(Rpc(REDIRECT_CAP)) || (d.recorded.None? && !d.signalled)
    case NoLeaderYet(st) => d.recorded == Some(Rpc(st)) && d.signalled
    case Unusable(st, stale) => d.recorded == Some(Rpc(st)) && d.signalled == stale
    case Err(e) => d.recorded == Some(e) && !d.signalled
  }

  /** Clock facts of one dial: it gets the per-attempt budget or what the deadline leaves of
      it, stays inside, and is followed by a sleep only after a connection problem. */
  predicate WellTimed<R>(d: Dial<R>, b: Budget) {
    && d.startedAt < b.deadline && d.budget == Min(b.perAttempt, b.deadline - d.startedAt)
    && d.startedAt <= d.endedAt <= d.startedAt + d.budget
    && d.endedAt <= d.wokeAt <= b.deadline && d.wokeAt - d.endedAt <= MAX_BACKOFF
    && (d.wokeAt > d.endedAt ==> d.outcome.Err? && IsTransportFailure(d.outcome.err))
  }

  // ------------------------------------------------------------------
  // Replaying a trace
  // ------------------------------------------------------------------

  /** The loop's variables.  `hinted` collects the endpoints that pivots put in. */
  datatype Loop = Loop(
    pass: nat, wokeAt: nat, failed: nat, total: nat, redirects: nat, sawSignal: bool,
    lastErr: Option<ClientError>, signal: Option<Status>,
    queue: seq<Endpoint>, visited: set<Endpoint>, hinted: set<Endpoint>)

  function One(b: bool): nat { if b then 1 else 0 }

  function SeedOf(seeds: seq<seq<Endpoint>>, pass: nat): seq<Endpoint> {
    if pass < |seeds| then seeds[pass] else []
  }

  /** A pass starts with a fresh worklist and a fresh redirect budget. */
  function StartPass(s: Loop, seeds: seq<seq<Endpoint>>, pass: nat): Loop {
    s.(pass := pass, redirects := 0, sawSignal := false, queue := SeedOf(seeds, pass), visited := {}, hinted := {})
  }

  function Enter(s: Loop, seeds: seq<seq<Endpoint>>, pass: nat): Loop {
    if pass == s.pass then s else StartPass(s, seeds, pass)
  }

  function Record<R>(s: Loop, d: Dial<R>): Loop {
    var rest := Rest(s.queue, s.visited);
    s.(wokeAt := d.wokeAt,
       failed := s.failed + One(d.outcome.Err?),
       total := s.total + One(Followed(d)),
       redirects := s.redirects + One(Followed(d)),
       sawSignal := s.sawSignal || d.signalled,
       lastErr := if d.recorded.Some? then d.recorded else s.lastErr,
       signal := if d.signalled && d.recorded.Some? && d.recorded.value.Rpc? then Some(d.recorded.value.status) else s.signal,
       queue := if Followed(d) then [d.outcome.hinted] + rest else rest,
       visited := s.visited + {d.endpoint},
       hinted := if Followed(d) then s.hinted + {d.outcome.hinted} else s.hinted)
  }

  function LoopAfter<R>(seeds: seq<seq<Endpoint>>, trace: seq<Dial<R>>): Loop {
    if trace == [] then Loop(0, 0, 0, 0, 0, false, None, None, SeedOf(seeds, 0), {}, {})
    else
      var d := trace[|trace| - 1];
      Record(Enter(LoopAfter(seeds, trace[..|trace| - 1]), seeds, d.pass), d)
  }

  /** A dial the loop may make in state `s`: of the first endpoint on the worklist not
      yet visited, while the failed-attempt cap is not reached. */
  predicate Admissible<R>(s: Loop, b: Budget, cap: nat, d: Dial<R>) {
    && Pick(s.queue, s.visited) == Some(d.endpoint)
    && s.failed < cap
    && s.wokeAt <= d.startedAt
    && WellRecorded(d) && WellTimed(d, b)
    && (d.outcome.Hint? ==> (Followed(d) <==> OnHint(s).Continue?) && (d.signalled <==> OnHint(s).EndPass?))
  }

  /** A redirect cap cut the pass short: the last dial brought a hint that was not followed. */
  predicate CutShort<R>(trace: seq<Dial<R>>) {
    trace != [] && trace[|trace| - 1].outcome.Hint? && !Followed(trace[|trace| - 1])
  }

  /** Whether the loop, in state `s` after `trace`, may go on to dial in `pass`: the current
      one, or the next once this one is used up and somebody signalled an election. */
  predicate GoesOnIn<R>(s: Loop, cap: nat, trace: seq<Dial<R>>, pass: nat) {
    if CutShort(trace) then pass == s.pass + 1 && trace[|trace| - 1].signalled
    else || pass == s.pass
         || (pass == s.pass + 1 && s.sawSignal && (Pick(s.queue, s.visited).None? || s.failed >= cap))
  }

  predicate Legal<R>(seeds: seq<seq<Endpoint>>, b: Budget, cap: nat, trace: seq<Dial<R>>) {
    trace == [] ||
    var before, d := trace[..|trace| - 1], trace[|trace| - 1];
    var s := LoopAfter(seeds, before);
    && Legal(seeds, b, cap, before)
    && (before != [] ==> !Terminal(before[|before| - 1].outcome))
    && GoesOnIn(s, cap, before, d.pass)
    && Admissible(Enter(s, seeds, d.pass), b, cap, d)
  }

  lemma {:induction false} LegalAppend<R>(seeds: seq<seq<Endpoint>>, b: Budget, cap: nat, trace: seq<Dial<R>>, d: Dial<R>)
    requires Legal(seeds, b, cap, trace)
    requires trace != [] ==> !Terminal(trace[|trace| - 1].outcome)
    requires var s := LoopAfter(seeds, trace);
             GoesOnIn(s, cap, trace, d.pass) && Admissible(Enter(s, seeds, d.pass), b, cap, d)
    ensures Legal(seeds, b, cap, trace + [d])
    ensures LoopAfter(seeds, trace + [d]) == Record(Enter(LoopAfter(seeds, trace), seeds, d.pass), d)
  {
    assert (trace + [d])[..|trace|] == trace;
  }

  lemma {:induction false} LegalPrefix<R>(seeds: seq<seq<Endpoint>>, b: Budget, cap: nat, trace: seq<Dial<R>>, n: nat)
    requires Legal(seeds, b, cap, trace) && n <= |trace|
    ensures Legal(seeds, b, cap, trace[..n])
  {
    if n < |trace| {
      LegalPrefix(seeds, b, cap, trace[..|trace| - 1], n);
      assert trace[..|trace| - 1][..n] == trace[..n];
    } else {
      assert trace[..n] == trace;
    }
  }

  // ------------------------------------------------------------------
  // Counting over a trace
  // ------------------------------------------------------------------

  function Failures<R>(trace: seq<Dial<R>>): nat {
    if trace == [] then 0 else Failures(trace[..|trace| - 1]) + One(trace[|trace| - 1].outcome.Err?)
  }

  function Pivots<R>(trace: seq<Dial<R>>): nat {
    if trace == [] then 0 else Pivots(trace[..|trace| - 1]) + One(Followed(trace[|trace| - 1]))
  }

  /** The dials of one pass, in order. */
  function InPass<R>(trace: seq<Dial<R>>, pass: nat): seq<Dial<R>> {
    if trace == [] then []
    else
      var d := trace[|trace| - 1];
      if d.pass == pass then InPass(trace[..|trace| - 1], pass) + [d] else InPass(trace[..|trace| - 1], pass)
  }

  ghost function EndpointsOf<R>(trace: seq<Dial<R>>): set<Endpoint> {
    set d | d in trace :: d.endpoint
  }

  /** The endpoints named by the hints that these dials brought and the loop followed. */
  ghost function HintsOf<R>(trace: seq<Dial<R>>): set<Endpoint> {
    set d | d in trace && Followed(d) :: d.outcome.hinted
  }

  ghost predicate SomeSignal<R>(trace: seq<Dial<R>>) { exists d :: d in trace && d.signalled }

  lemma {:induction false} CountersTrackTrace<R>(seeds: seq<seq<Endpoint>>, b: Budget, cap: nat, trace: seq<Dial<R>>)
    requires Legal(seeds, b, cap, trace)
    ensures LoopAfter(seeds, trace).failed == Failures(trace)
    ensures LoopAfter(seeds, trace).total == Pivots(trace) <= 64
    ensures trace != [] ==> LoopAfter(seeds, trace).pass == trace[|trace| - 1].pass
    ensures trace == [] ==> LoopAfter(seeds, trace).pass == 0
  {
    if trace != [] { CountersTrackTrace(seeds, b, cap, trace[..|trace| - 1]); }
  }

  // ------------------------------------------------------------------
  // One pass
  // ------------------------------------------------------------------

  /** Everything queued or visited this pass came from its seed or from a pivot. */
  ghost predicate FromSeedOrHint(seed: set<Endpoint>, s: Loop) {
    && Members(s.queue) <= seed + s.hinted
    && s.visited <= seed + s.hinted
    && |s.hinted| <= s.redirects <= MAX_LEADER_REDIRECTS
  }

  /** How the loop's variables describe the dials of the current pass. */
  ghost predicate Describes<R>(mine: seq<Dial<R>>, s: Loop) {
    && s.redirects == Pivots(mine)
    && EndpointsOf(mine) == s.visited && HintsOf(mine) == s.hinted
    && (s.sawSignal <==> SomeSignal(mine))
    && |mine| == |s.visited|
    && Failures(mine) + Pivots(mine) <= |mine|
  }

  ghost predicate PassInv<R>(seeds: seq<seq<Endpoint>>, trace: seq<Dial<R>>, s: Loop) {
    && FromSeedOrHint(Members(SeedOf(seeds, s.pass)), s)
    && Describes(InPass(trace, s.pass), s)
  }

  lemma {:induction false} PassesOrdered<R>(seeds: seq<seq<Endpoint>>, b: Budget, cap: nat, trace: seq<Dial<R>>, p: nat)
    requires Legal(seeds, b, cap, trace) && p > LoopAfter(seeds, trace).pass
    ensures InPass(trace, p) == []
  {
    if trace != [] {
      CountersTrackTrace(seeds, b, cap, trace);
      PassesOrdered(seeds, b, cap, trace[..|trace| - 1], p);
    }
  }

  lemma {:induction false} AppendToPass<R>(mine: seq<Dial<R>>, d: Dial<R>)
    ensures Failures(mine + [d]) == Failures(mine) + One(d.outcome.Err?)
    ensures Pivots(mine + [d]) == Pivots(mine) + One(Followed(d))
    ensures EndpointsOf(mine + [d]) == EndpointsOf(mine) + {d.endpoint}
    ensures HintsOf(mine + [d]) == if Followed(d) then HintsOf(mine) + {d.outcome.hinted} else HintsOf(mine)
    ensures SomeSignal(mine + [d]) <==> SomeSignal(mine) || d.signalled
  {
    assert (mine + [d])[..|mine|] == mine;
    assert d in mine + [d];
    assert forall x :: x in mine ==> x in mine + [d];
  }

  lemma {:induction false} QueueRest(queue: seq<Endpoint>, k: nat, h: Endpoint)
    requires k < |queue|
    ensures queue[k] in Members(queue)
    ensures Members(queue[k + 1..]) <= Members(queue)
    ensures Members([h] + queue[k + 1..]) <= Members(queue) + {h}
  {
  }

  lemma {:induction false} EnterKeepsPass<R>(seeds: seq<seq<Endpoint>>, b: Budget, cap: nat, trace: seq<Dial<R>>, pass: nat)
    requires Legal(seeds, b, cap, trace) && PassInv(seeds, trace, LoopAfter(seeds, trace))
    requires pass >= LoopAfter(seeds, trace).pass
    ensures PassInv(seeds, trace, Enter(LoopAfter(seeds, trace), seeds, pass))
  {
    if pass > LoopAfter(seeds, trace).pass {
      PassesOrdered(seeds, b, cap, trace, pass);
    }
  }

  lemma {:induction false} RecordKeepsSource<R>(seed: set<Endpoint>, b: Budget, cap: nat, s: Loop, d: Dial<R>)
    requires FromSeedOrHint(seed, s) && Admissible(s, b, cap, d)
    ensures FromSeedOrHint(seed, Record(s, d))
  {
    QueueRest(s.queue, FirstUnvisited(s.queue, s.visited), if d.outcome.Hint? then d.outcome.hinted else "");
  }

  lemma {:induction false} RecordKeepsDescription<R>(b: Budget, cap: nat, mine: seq<Dial<R>>, s: Loop, d: Dial<R>)
    requires Describes(mine, s) && Admissible(s, b, cap, d)
    ensures Describes(mine + [d], Record(s, d))
  {
    AppendToPass(mine, d);
  }

  lemma {:induction false} RecordKeepsPass<R>(seeds: seq<seq<Endpoint>>, b: Budget, cap: nat, trace: seq<Dial<R>>, s: Loop, d: Dial<R>)
    requires trace != [] && d == trace[|trace| - 1]
    requires PassInv(seeds, trace[..|trace| - 1], s) && Admissible(s, b, cap, d) && d.pass == s.pass
    ensures PassInv(seeds, trace, Record(s, d))
  {
    RecordKeepsSource(Members(SeedOf(seeds, s.pass)), b, cap, s, d);
    RecordKeepsDescription(b, cap, InPass(trace[..|trace| - 1], s.pass), s, d);
  }

  lemma {:induction false} PassInvAtStart<R>(seeds: seq<seq<Endpoint>>, trace: seq<Dial<R>>)
    requires trace == []
    ensures PassInv(seeds, trace, LoopAfter(seeds, trace))
  {
    assert EndpointsOf(trace) == {} && HintsOf(trace) == {};
  }

  lemma {:induction false} PassInvHolds<R>(seeds: seq<seq<Endpoint>>, b: Budget, cap: nat, trace: seq<Dial<R>>)
    requires Legal(seeds, b, cap, trace)
    ensures PassInv(seeds, trace, LoopAfter(seeds, trace))
  {
    if trace == [] {
      PassInvAtStart(seeds, trace);
    } else {
      var before, d := trace[..|trace| - 1], trace[|trace| - 1];
      PassInvHolds(seeds, b, cap, before);
      var s1 := Enter(LoopAfter(seeds, before), seeds, d.pass);
      EnterKeepsPass(seeds, b, cap, before, d.pass);
      RecordKeepsPass(seeds, b, cap, trace, s1, d);
    }
  }

  /** Every pass dials each endpoint at most once, makes at most 16 more dials than its
      seed has endpoints, and follows at most 16 hints. */
  lemma {:induction false} EveryPassIsBounded<R>(seeds: seq<seq<Endpoint>>, b: Budget, cap: nat, trace: seq<Dial<R>>, p: nat)
    requires Legal(seeds, b, cap, trace)
    ensures |InPass(trace, p)| == |EndpointsOf(InPass(trace, p))|
    ensures |InPass(trace, p)| <= |SeedOf(seeds, p)| + 16
    ensures Pivots(InPass(trace, p)) <= 16
  {
    var s := LoopAfter(seeds, trace);
    if p == s.pass {
      PassInvHolds(seeds, b, cap, trace);
      MembersAtMost(SeedOf(seeds, p));
      SubsetSize(s.visited, Members(SeedOf(seeds, p)) + s.hinted);
    } else if trace != [] {
      CountersTrackTrace(seeds, b, cap, trace);
      EveryPassIsBounded(seeds, b, cap, trace[..|trace| - 1], p);
    }
  }

  // ------------------------------------------------------------------
  // First-pass coverage
  // ------------------------------------------------------------------

  /** Each pivot costs a dial that did not fail and admits at most one endpoint from
      outside the seed, so failures never outnumber the seed endpoints dialed. */
  lemma {:induction false} FailuresAreSeedDials(seed: set<Endpoint>, dialed: set<Endpoint>, hinted: set<Endpoint>, failed: nat, pivots: nat)
    requires dialed <= seed + hinted && |hinted| <= pivots
    requires failed + pivots <= |dialed|
    ensures failed <= |dialed * seed| <= |seed|
    ensures |seed| <= failed ==> seed <= dialed
  {
    SubsetSize(dialed - seed, hinted);
    assert dialed == dialed * seed + (dialed - seed);
    SubsetSize(dialed * seed, seed);
  }

  /** In the first pass the failed-attempt cap is never reached with a seed endpoint
      still undialed, even when hints push failing endpoints to the front. */
  lemma {:induction false} FirstPassCoversSeed<R>(seeds: seq<seq<Endpoint>>, b: Budget, cap: nat, trace: seq<Dial<R>>)
    requires Legal(seeds, b, cap, trace) && cap >= |SeedOf(seeds, 0)|
    ensures Failures(InPass(trace, 0)) >= cap ==> Members(SeedOf(seeds, 0)) <= EndpointsOf(InPass(trace, 0))
  {
    var s := LoopAfter(seeds, trace);
    if s.pass == 0 {
      PassInvHolds(seeds, b, cap, trace);
      MembersAtMost(SeedOf(seeds, 0));
      FailuresAreSeedDials(Members(SeedOf(seeds, 0)), s.visited, s.hinted,
                           Failures(InPass(trace, 0)), Pivots(InPass(trace, 0)));
    } else {
      CountersTrackTrace(seeds, b, cap, trace);
      FirstPassCoversSeed(seeds, b, cap, trace[..|trace| - 1]);
    }
  }

  /** No dial starts once the cap is reached. */
  lemma {:induction false} NoDialPastCap<R>(seeds: seq<seq<Endpoint>>, b: Budget, cap: nat, trace: seq<Dial<R>>, i: nat)
    requires Legal(seeds, b, cap, trace) && i < |trace|
    ensures Failures(trace[..i]) < cap
  {
    LegalPrefix(seeds, b, cap, trace, i + 1);
    var upto := trace[..i + 1];
    assert upto[..i] == trace[..i];
    CountersTrackTrace(seeds, b, cap, trace[..i]);
  }

  lemma {:induction false} LastIsTimed<R>(seeds: seq<seq<Endpoint>>, b: Budget, cap: nat, trace: seq<Dial<R>>)
    requires Legal(seeds, b, cap, trace) && trace != []
    ensures WellTimed(trace[|trace| - 1], b)
    ensures |trace| > 1 ==> trace[|trace| - 2].wokeAt <= trace[|trace| - 1].startedAt
  {
    if |trace| > 1 {
      var before := trace[..|trace| - 1];
      assert LoopAfter(seeds, before).wokeAt == before[|before| - 1].wokeAt;
    }
  }

  lemma {:induction false} TimedAt<R>(seeds: seq<seq<Endpoint>>, b: Budget, cap: nat, trace: seq<Dial<R>>, j: nat)
    requires Legal(seeds, b, cap, trace) && j < |trace|
    ensures WellTimed(trace[j], b) && (j > 0 ==> trace[j - 1].wokeAt <= trace[j].startedAt)
  {
    LegalPrefix(seeds, b, cap, trace, j + 1);
    LastIsTimed(seeds, b, cap, trace[..j + 1]);
  }

  /** Each dial keeps its times, and starts after the one before it. */
  predicate OnTime<R>(trace: seq<Dial<R>>, b: Budget, j: nat)
    requires j < |trace|
  {
    WellTimed(trace[j], b) && (j > 0 ==> trace[j - 1].wokeAt <= trace[j].startedAt)
  }

  lemma {:induction false} InOrder<R>(trace: seq<Dial<R>>, b: Budget, i: nat, j: nat)
    requires i < j < |trace| && forall k: nat :: k < |trace| ==> OnTime(trace, b, k)
    ensures trace[i].wokeAt <= trace[j].startedAt
  {
    assert OnTime(trace, b, j);
    if i < j - 1 {
      InOrder(trace, b, i, j - 1);
      assert OnTime(trace, b, j - 1);
    }
  }

  /** Dials do not overlap, and nothing ends past the deadline. */
  lemma {:induction false} DialsRespectDeadline<R>(seeds: seq<seq<Endpoint>>, b: Budget, cap: nat, trace: seq<Dial<R>>, i: nat, j: nat)
    requires Legal(seeds, b, cap, trace) && i < j < |trace|
    ensures WellTimed(trace[i], b) && WellTimed(trace[j], b)
    ensures trace[i].wokeAt <= trace[j].startedAt
  {
    forall k: nat | k < |trace| ensures OnTime(trace, b, k) {
      TimedAt(seeds, b, cap, trace, k);
    }
    InOrder(trace, b, i, j);
    assert OnTime(trace, b, i) && OnTime(trace, b, j);
  }

  // ------------------------------------------------------------------
  // Who is dialed next
  // ------------------------------------------------------------------

  /** The hint the last of these dials brought, if the loop followed it. */
  function LastHint<R>(mine: seq<Dial<R>>): seq<Endpoint> {
    if mine != [] && Followed(mine[|mine| - 1]) then [mine[|mine| - 1].outcome.hinted] else []
  }

  /** The queue is what the seed holds from position `n` on, behind the last dial's hint;
      everything before that position has been dialed. */
  ghost predicate InLine<R>(seed: seq<Endpoint>, mine: seq<Dial<R>>, s: Loop, n: nat) {
    && n <= |seed| && s.queue == LastHint(mine) + seed[n..]
    && forall i :: 0 <= i < n ==> seed[i] in s.visited
  }

  lemma {:induction false} RecordKeepsLine<R>(seed: seq<Endpoint>, b: Budget, cap: nat, mine: seq<Dial<R>>, s: Loop, d: Dial<R>, n: nat) returns (m: nat)
    requires InLine(seed, mine, s, n) && Admissible(s, b, cap, d)
    ensures InLine(seed, mine + [d], Record(s, d), m)
  {
    var k, front := FirstUnvisited(s.queue, s.visited), LastHint(mine);
    m := n + k + 1 - |front|;
    DropFront(front, seed, n, k, s.visited + {d.endpoint});
    assert Record(s, d).queue == LastHint(mine + [d]) + seed[m..];
  }

  /** Past the hint in front, dropping from the queue moves the seed's position on. */
  lemma {:induction false} DropFront(front: seq<Endpoint>, seed: seq<Endpoint>, n: nat, k: nat, visited: set<Endpoint>)
    requires |front| <= 1 && n <= |seed| && k < |front + seed[n..]|
    requires forall i :: 0 <= i <= k ==> (front + seed[n..])[i] in visited
    requires forall i :: 0 <= i < n ==> seed[i] in visited
    ensures n + k + 1 - |front| <= |seed| && (front + seed[n..])[k + 1..] == seed[n + k + 1 - |front|..]
    ensures forall i :: 0 <= i < n + k + 1 - |front| ==> seed[i] in visited
  {
    forall i | n <= i < n + k + 1 - |front| ensures seed[i] in visited {
      assert seed[i] == (front + seed[n..])[|front| + i - n];
    }
  }

  lemma {:induction false} StaysInLine<R>(seeds: seq<seq<Endpoint>>, b: Budget, cap: nat, trace: seq<Dial<R>>) returns (n: nat)
    requires Legal(seeds, b, cap, trace)
    ensures var s := LoopAfter(seeds, trace);
            InLine(SeedOf(seeds, s.pass), InPass(trace, s.pass), s, n)
  {
    n := 0;
    if trace != [] {
      var before, d := trace[..|trace| - 1], trace[|trace| - 1];
      n := StaysInLine(seeds, b, cap, before);
      if d.pass > LoopAfter(seeds, before).pass {
        PassesOrdered(seeds, b, cap, before, d.pass);
        n := 0;
      }
      n := RecordKeepsLine(SeedOf(seeds, d.pass), b, cap, InPass(before, d.pass), Enter(LoopAfter(seeds, before), seeds, d.pass), d, n);
    }
  }

  /** The last dial's hint was followed to an endpoint that this pass has not dialed yet. */
  ghost predicate Steered<R>(mine: seq<Dial<R>>) { LastHint(mine) != [] && LastHint(mine)[0] !in EndpointsOf(mine) }

  /** Position of the first endpoint of the seed that these dials have not tried. */
  ghost function Untried<R>(seed: seq<Endpoint>, mine: seq<Dial<R>>): nat { FirstUnvisited(seed, EndpointsOf(mine)) }

  lemma {:induction false} LineHead<R>(seed: seq<Endpoint>, mine: seq<Dial<R>>, s: Loop, n: nat)
    requires InLine(seed, mine, s, n) && s.visited == EndpointsOf(mine)
    ensures Steered(mine) ==> Pick(s.queue, s.visited) == Some(LastHint(mine)[0])
    ensures !Steered(mine) && Untried(seed, mine) < |seed| ==> Pick(s.queue, s.visited) == Some(seed[Untried(seed, mine)])
    ensures !Steered(mine) && Untried(seed, mine) == |seed| ==> Pick(s.queue, s.visited).None?
  {
    var u, ahead := Untried(seed, mine), |LastHint(mine)|;
    if !Steered(mine) && u < |seed| {
      assert u >= n && s.queue[ahead + u - n] == seed[u];
      assert forall j :: 0 <= j < ahead + u - n ==> s.queue[j] in s.visited by {
        forall j | ahead <= j < ahead + u - n ensures s.queue[j] in s.visited { assert s.queue[j] == seed[n + j - ahead]; }
      }
    }
  }

  /** The loop's state when it is about to dial in `pass`. */
  lemma {:induction false} PassState<R>(seeds: seq<seq<Endpoint>>, b: Budget, cap: nat, trace: seq<Dial<R>>, pass: nat)
    requires Legal(seeds, b, cap, trace) && LoopAfter(seeds, trace).pass <= pass
    ensures PassInv(seeds, trace, Enter(LoopAfter(seeds, trace), seeds, pass))
  {
    PassInvHolds(seeds, b, cap, trace);
    EnterKeepsPass(seeds, b, cap, trace, pass);
  }

  lemma {:induction false} EntersInLine<R>(seeds: seq<seq<Endpoint>>, b: Budget, cap: nat, trace: seq<Dial<R>>, pass: nat) returns (n: nat)
    requires Legal(seeds, b, cap, trace) && LoopAfter(seeds, trace).pass <= pass
    ensures InLine(SeedOf(seeds, pass), InPass(trace, pass), Enter(LoopAfter(seeds, trace), seeds, pass), n)
  {
    if pass > LoopAfter(seeds, trace).pass {
      PassesOrdered(seeds, b, cap, trace, pass);
      n := 0;
    } else {
      n := StaysInLine(seeds, b, cap, trace);
    }
  }

  /** What the worklist has to offer, read off the seed and the dials of the pass alone: the
      last dial's hint if it is new, otherwise the first endpoint of the seed not tried yet. */
  lemma {:induction false} NextInLine<R>(seeds: seq<seq<Endpoint>>, b: Budget, cap: nat, trace: seq<Dial<R>>, pass: nat)
    requires Legal(seeds, b, cap, trace) && LoopAfter(seeds, trace).pass <= pass
    ensures var seed, mine, s := SeedOf(seeds, pass), InPass(trace, pass), Enter(LoopAfter(seeds, trace), seeds, pass);
            && (Steered(mine) ==> Pick(s.queue, s.visited) == Some(LastHint(mine)[0]))
            && (!Steered(mine) && Untried(seed, mine) < |seed| ==> Pick(s.queue, s.visited) == Some(seed[Untried(seed, mine)]))
            && (!Steered(mine) && Untried(seed, mine) == |seed| ==> Pick(s.queue, s.visited).None?)
  {
    PassState(seeds, b, cap, trace, pass);
    var n := EntersInLine(seeds, b, cap, trace, pass);
    LineHead(SeedOf(seeds, pass), InPass(trace, pass), Enter(LoopAfter(seeds, trace), seeds, pass), n);
  }

  /** Facts of dial `i`, seen from the state before it. */
  lemma {:induction false} DialAt<R>(seeds: seq<seq<Endpoint>>, b: Budget, cap: nat, trace: seq<Dial<R>>, i: nat)
    requires Legal(seeds, b, cap, trace) && i < |trace|
    ensures Legal(seeds, b, cap, trace[..i])
    ensures var s := LoopAfter(seeds, trace[..i]);
            GoesOnIn(s, cap, trace[..i], trace[i].pass) && Admissible(Enter(s, seeds, trace[i].pass), b, cap, trace[i])
  {
    LegalPrefix(seeds, b, cap, trace, i + 1);
    assert trace[..i + 1][..i] == trace[..i];
  }

  /** Every dial goes to the hint just followed, if that is new to the pass, and otherwise to
      the first endpoint of the pass's seed that the pass has not dialed yet. */
  lemma {:induction false} DialOrder<R>(seeds: seq<seq<Endpoint>>, b: Budget, cap: nat, trace: seq<Dial<R>>, i: nat)
    requires Legal(seeds, b, cap, trace) && i < |trace|
    ensures var seed, mine := SeedOf(seeds, trace[i].pass), InPass(trace[..i], trace[i].pass);
            && trace[i].endpoint !in EndpointsOf(mine)
            && (Steered(mine) ==> trace[i].endpoint == LastHint(mine)[0])
            && (!Steered(mine) ==> exists q :: 0 <= q < |seed| && seed[q] == trace[i].endpoint
                                               && forall r :: 0 <= r < q ==> seed[r] in EndpointsOf(mine))
  {
    DialAt(seeds, b, cap, trace, i);
    NextInLine(seeds, b, cap, trace[..i], trace[i].pass);
    var seed, mine := SeedOf(seeds, trace[i].pass), InPass(trace[..i], trace[i].pass);
    if !Steered(mine) {
      assert seed[Untried(seed, mine)] == trace[i].endpoint;
    }
  }

  /** Nothing is forgotten: whatever the pass was seeded with or steered to has been dialed or
      is still queued. */
  lemma {:induction false} NothingForgotten<R>(seeds: seq<seq<Endpoint>>, b: Budget, cap: nat, trace: seq<Dial<R>>)
    requires Legal(seeds, b, cap, trace)
    ensures var s := LoopAfter(seeds, trace);
            && s.hinted == HintsOf(InPass(trace, s.pass))
            && Members(SeedOf(seeds, s.pass)) + s.hinted <= EndpointsOf(InPass(trace, s.pass)) + Members(s.queue)
  {
    var s := LoopAfter(seeds, trace);
    PassInvHolds(seeds, b, cap, trace);
    var n := StaysInLine(seeds, b, cap, trace);
    SeedIsKept(SeedOf(seeds, s.pass), InPass(trace, s.pass), s, n);
    HintsAreTaken(seeds, b, cap, trace);
  }

  lemma {:induction false} SeedIsKept<R>(seed: seq<Endpoint>, mine: seq<Dial<R>>, s: Loop, n: nat)
    requires InLine(seed, mine, s, n)
    ensures Members(seed) <= s.visited + Members(s.queue)
  {
    forall e | e in Members(seed) ensures e in s.visited + Members(s.queue) {
      var i :| 0 <= i < |seed| && seed[i] == e;
      if i >= n { assert s.queue[|LastHint(mine)| + i - n] == e; }
    }
  }

  /** Every hint followed in the current pass was dialed in it, or is about to be. */
  lemma {:induction false} HintsAreTaken<R>(seeds: seq<seq<Endpoint>>, b: Budget, cap: nat, trace: seq<Dial<R>>)
    requires Legal(seeds, b, cap, trace)
    ensures var s := LoopAfter(seeds, trace);
            s.hinted <= s.visited + Members(s.queue)
  {
    if trace != [] {
      var before, d := trace[..|trace| - 1], trace[|trace| - 1];
      HintsAreTaken(seeds, b, cap, before);
      var s := Enter(LoopAfter(seeds, before), seeds, d.pass);
      RestKeeps(s.queue, s.visited);
      if Followed(d) { assert Record(s, d).queue[0] == d.outcome.hinted; }
    }
  }

  lemma {:induction false} RestKeeps(queue: seq<Endpoint>, visited: set<Endpoint>)
    ensures Pick(queue, visited).Some? ==> Members(queue) <= visited + {Pick(queue, visited).value} + Members(Rest(queue, visited))
    ensures Pick(queue, visited).None? ==> Members(queue) <= visited
  {
    var k := FirstUnvisited(queue, visited);
    forall i | k < i < |queue| ensures queue[i] in Members(queue[k + 1..]) { assert queue[i] == queue[k + 1..][i - k - 1]; }
  }

  // ------------------------------------------------------------------
  // What a dial leads to
  // ------------------------------------------------------------------

  /** Neither redirect cap is used up when dial `i` is made. */
  predicate BelowCaps<R>(trace: seq<Dial<R>>, i: nat)
    requires i < |trace|
  {
    Pivots(InPass(trace[..i], trace[i].pass)) < MAX_LEADER_REDIRECTS && Pivots(trace[..i]) < MAX_TOTAL_LEADER_REDIRECTS
  }

  /** The caps as counted by the loop are the caps as counted over the trace. */
  lemma {:induction false} CapsAt<R>(seeds: seq<seq<Endpoint>>, b: Budget, cap: nat, trace: seq<Dial<R>>, i: nat)
    requires Legal(seeds, b, cap, trace) && i < |trace|
    ensures var s := Enter(LoopAfter(seeds, trace[..i]), seeds, trace[i].pass);
            s.total == Pivots(trace[..i]) && s.redirects == Pivots(InPass(trace[..i], trace[i].pass))
  {
    DialAt(seeds, b, cap, trace, i);
    CountersTrackTrace(seeds, b, cap, trace[..i]);
    PassState(seeds, b, cap, trace[..i], trace[i].pass);
  }

  /** What each outcome costs and records: errors are charged and kept, signs of an election
      and unusable hints are kept without a charge, hints below the caps neither. */
  lemma {:induction false} OutcomeIsBooked<R>(seeds: seq<seq<Endpoint>>, b: Budget, cap: nat, trace: seq<Dial<R>>, i: nat)
    requires Legal(seeds, b, cap, trace) && i < |trace|
    ensures Failures(trace[..i + 1]) == Failures(trace[..i]) + (if trace[i].outcome.Err? then 1 else 0)
    ensures trace[i].outcome.Err? ==> trace[i].recorded == Some(trace[i].outcome.err) && !trace[i].signalled
    ensures trace[i].outcome.NoLeaderYet? ==> trace[i].recorded == Some(Rpc(trace[i].outcome.status)) && trace[i].signalled
    ensures trace[i].outcome.Unusable? ==>
              trace[i].recorded == Some(Rpc(trace[i].outcome.why)) && (trace[i].signalled <==> trace[i].outcome.stale)
    ensures trace[i].outcome.Hint? && BelowCaps(trace, i) ==> trace[i].recorded.None? && !trace[i].signalled
    ensures trace[i].outcome.Hint? && !BelowCaps(trace, i) ==>
              && trace[i].recorded == Some(Rpc(REDIRECT_CAP))
              && (trace[i].signalled <==> Pivots(trace[..i]) < MAX_TOTAL_LEADER_REDIRECTS)
  {
    DialAt(seeds, b, cap, trace, i);
    CapsAt(seeds, b, cap, trace, i);
    ChargedAt(trace, i);
    BookedIn(Enter(LoopAfter(seeds, trace[..i]), seeds, trace[i].pass), b, cap, trace[i]);
  }

  lemma {:induction false} ChargedAt<R>(trace: seq<Dial<R>>, i: nat)
    requires i < |trace|
    ensures Failures(trace[..i + 1]) == Failures(trace[..i]) + (if trace[i].outcome.Err? then 1 else 0)
  {
    assert trace[..i + 1] == trace[..i] + [trace[i]];
    AppendToPass(trace[..i], trace[i]);
  }

  lemma {:induction false} BookedIn<R>(s: Loop, b: Budget, cap: nat, d: Dial<R>)
    requires Admissible(s, b, cap, d)
    ensures WellRecorded(d)
    ensures d.outcome.Hint? && s.redirects < MAX_LEADER_REDIRECTS && s.total < MAX_TOTAL_LEADER_REDIRECTS ==>
              d.recorded.None? && !d.signalled
    ensures d.outcome.Hint? && !(s.redirects < MAX_LEADER_REDIRECTS && s.total < MAX_TOTAL_LEADER_REDIRECTS) ==>
              d.recorded == Some(Rpc(REDIRECT_CAP)) && (d.signalled <==> s.total < MAX_TOTAL_LEADER_REDIRECTS)
  {
  }

  /** A hint below the caps is obeyed at once: the very next dial, if there is one, is of the
      endpoint it names unless this pass has dialed that already.  At the pass's cap the next
      dial, if any, belongs to the next pass; at the call's cap there is none. */
  lemma {:induction false} HintIsObeyed<R>(seeds: seq<seq<Endpoint>>, b: Budget, cap: nat, trace: seq<Dial<R>>, i: nat)
    requires Legal(seeds, b, cap, trace) && i + 1 < |trace| && trace[i].outcome.Hint?
    ensures BelowCaps(trace, i) && trace[i].outcome.hinted !in EndpointsOf(InPass(trace[..i + 1], trace[i].pass)) ==>
              trace[i + 1].pass == trace[i].pass && trace[i + 1].endpoint == trace[i].outcome.hinted
    ensures !BelowCaps(trace, i) ==> Pivots(trace[..i]) < MAX_TOTAL_LEADER_REDIRECTS && trace[i + 1].pass == trace[i].pass + 1
  {
    OutcomeIsBooked(seeds, b, cap, trace, i);
    DialAt(seeds, b, cap, trace, i + 1);
    var upTo := trace[..i + 1];
    assert upTo[|upTo| - 1] == trace[i];
    CountersTrackTrace(seeds, b, cap, upTo);
    if BelowCaps(trace, i) && trace[i].outcome.hinted !in EndpointsOf(InPass(upTo, trace[i].pass)) {
      SteeredIsNext(seeds, b, cap, upTo, trace[i + 1]);
    }
  }

  /** Once steered, the loop stays in the pass and dials the hint. */
  lemma {:induction false} SteeredIsNext<R>(seeds: seq<seq<Endpoint>>, b: Budget, cap: nat, trace: seq<Dial<R>>, d: Dial<R>)
    requires Legal(seeds, b, cap, trace) && trace != [] && Followed(trace[|trace| - 1])
    requires trace[|trace| - 1].outcome.hinted !in EndpointsOf(InPass(trace, trace[|trace| - 1].pass))
    requires var s := LoopAfter(seeds, trace);
             GoesOnIn(s, cap, trace, d.pass) && Admissible(Enter(s, seeds, d.pass), b, cap, d)
    ensures d.pass == trace[|trace| - 1].pass && d.endpoint == trace[|trace| - 1].outcome.hinted
  {
    var pass := trace[|trace| - 1].pass;
    CountersTrackTrace(seeds, b, cap, trace);
    assert Steered(InPass(trace, pass));
    NextInLine(seeds, b, cap, trace, pass);
  }

  /** A further pass starts only after a dial of the one before signalled an election, and
      only once that pass was cut short at its redirect cap or had dialed its whole seed and
      every hint it followed. */
  lemma {:induction false} PassIsDue<R>(seeds: seq<seq<Endpoint>>, b: Budget, cap: nat, trace: seq<Dial<R>>, i: nat)
    requires Legal(seeds, b, cap, trace) && i + 1 < |trace| && trace[i + 1].pass != trace[i].pass
    ensures var mine := InPass(trace[..i + 1], trace[i].pass);
            && trace[i + 1].pass == trace[i].pass + 1 && SomeSignal(mine)
            && (CutShort(trace[..i + 1]) || Members(SeedOf(seeds, trace[i].pass)) + HintsOf(mine) <= EndpointsOf(mine))
  {
    var upTo := trace[..i + 1];
    DialAt(seeds, b, cap, trace, i + 1);
    CountersTrackTrace(seeds, b, cap, upTo);
    FurtherPassIsDue(seeds, b, cap, upTo, trace[i + 1]);
  }

  lemma {:induction false} FurtherPassIsDue<R>(seeds: seq<seq<Endpoint>>, b: Budget, cap: nat, trace: seq<Dial<R>>, d: Dial<R>)
    requires Legal(seeds, b, cap, trace) && trace != [] && d.pass != trace[|trace| - 1].pass == LoopAfter(seeds, trace).pass
    requires var s := LoopAfter(seeds, trace);
             GoesOnIn(s, cap, trace, d.pass) && Admissible(Enter(s, seeds, d.pass), b, cap, d)
    ensures var s := LoopAfter(seeds, trace);
            var mine := InPass(trace, s.pass);
            && d.pass == s.pass + 1 && SomeSignal(mine)
            && (CutShort(trace) || Members(SeedOf(seeds, s.pass)) + HintsOf(mine) <= EndpointsOf(mine))
  {
    PassInvHolds(seeds, b, cap, trace);
    if CutShort(trace) {
      assert trace[|trace| - 1] in InPass(trace, trace[|trace| - 1].pass);
    } else {
      PassIsDone(seeds, b, cap, trace);
    }
  }

  lemma {:induction false} PassIsDone<R>(seeds: seq<seq<Endpoint>>, b: Budget, cap: nat, trace: seq<Dial<R>>)
    requires Legal(seeds, b, cap, trace)
    ensures var s := LoopAfter(seeds, trace);
            var mine := InPass(trace, s.pass);
            Pick(s.queue, s.visited).None? ==> Members(SeedOf(seeds, s.pass)) + HintsOf(mine) <= EndpointsOf(mine)
  {
    PassInvHolds(seeds, b, cap, trace);
    NothingForgotten(seeds, b, cap, trace);
    RestKeeps(LoopAfter(seeds, trace).queue, LoopAfter(seeds, trace).visited);
  }

  // ------------------------------------------------------------------
  // The surfaced error
  // ------------------------------------------------------------------

  function SurfaceError(signal: Option<Status>, lastErr: Option<ClientError>): ClientError {
    if lastErr.Some? && !IsTransportFailure(lastErr.value) then lastErr.value
    else if signal.Some? then Rpc(signal.value)
    else if lastErr.Some? then lastErr.value
    else NoReachableEndpoints
  }

  function Surfaced<R>(seeds: seq<seq<Endpoint>>, trace: seq<Dial<R>>): ClientError {
    SurfaceError(LoopAfter(seeds, trace).signal, LoopAfter(seeds, trace).lastErr)
  }

  ghost predicate Recorded<R>(trace: seq<Dial<R>>, e: ClientError) {
    exists i :: 0 <= i < |trace| && trace[i].recorded == Some(e)
  }

  ghost predicate Signalled<R>(trace: seq<Dial<R>>) {
    exists i :: 0 <= i < |trace| && trace[i].signalled
  }

  ghost predicate AllFollowed<R>(trace: seq<Dial<R>>) {
    forall i :: 0 <= i < |trace| ==> Followed(trace[i])
  }

  lemma {:induction false} RecordedOfPrefix<R>(before: seq<Dial<R>>, trace: seq<Dial<R>>, e: ClientError)
    requires before <= trace && Recorded(before, e)
    ensures Recorded(trace, e)
  {
    var i :| 0 <= i < |before| && before[i].recorded == Some(e);
    assert trace[i] == before[i];
  }

  /** The two sticky slots, read off the trace alone. */
  function LastErr<R>(trace: seq<Dial<R>>): Option<ClientError> {
    if trace == [] then None
    else if trace[|trace| - 1].recorded.Some? then trace[|trace| - 1].recorded
    else LastErr(trace[..|trace| - 1])
  }

  function Signal<R>(trace: seq<Dial<R>>): Option<Status> {
    if trace == [] then None
    else
      var d := trace[|trace| - 1];
      if d.signalled && d.recorded.Some? && d.recorded.value.Rpc? then Some(d.recorded.value.status)
      else Signal(trace[..|trace| - 1])
  }

  ghost predicate AllWellRecorded<R>(trace: seq<Dial<R>>) {
    forall i :: 0 <= i < |trace| ==> WellRecorded(trace[i]) && !Terminal(trace[i].outcome)
  }

  lemma {:induction false} SlotsOfLoop<R>(seeds: seq<seq<Endpoint>>, trace: seq<Dial<R>>)
    ensures LoopAfter(seeds, trace).lastErr == LastErr(trace)
    ensures LoopAfter(seeds, trace).signal == Signal(trace)
  {
    if trace != [] { SlotsOfLoop(seeds, trace[..|trace| - 1]); }
  }

  lemma {:induction false} LegalLast<R>(seeds: seq<seq<Endpoint>>, b: Budget, cap: nat, trace: seq<Dial<R>>)
    requires Legal(seeds, b, cap, trace) && trace != []
    ensures var before := trace[..|trace| - 1];
            Legal(seeds, b, cap, before) && (before != [] ==> !Terminal(before[|before| - 1].outcome))
    ensures WellRecorded(trace[|trace| - 1])
  {
  }

  lemma {:induction false} WellRecordedAt<R>(seeds: seq<seq<Endpoint>>, b: Budget, cap: nat, trace: seq<Dial<R>>, i: nat)
    requires Legal(seeds, b, cap, trace) && i < |trace| && !Terminal(trace[|trace| - 1].outcome)
    ensures WellRecorded(trace[i]) && !Terminal(trace[i].outcome)
  {
    LegalLast(seeds, b, cap, trace);
    if i < |trace| - 1 { WellRecordedAt(seeds, b, cap, trace[..|trace| - 1], i); }
  }

  lemma {:induction false} LegalIsWellRecorded<R>(seeds: seq<seq<Endpoint>>, b: Budget, cap: nat, trace: seq<Dial<R>>)
    requires Legal(seeds, b, cap, trace) && (trace != [] ==> !Terminal(trace[|trace| - 1].outcome))
    ensures AllWellRecorded(trace)
  {
    forall i | 0 <= i < |trace| ensures WellRecorded(trace[i]) && !Terminal(trace[i].outcome) {
      WellRecordedAt(seeds, b, cap, trace, i);
    }
  }

  lemma {:induction false} LastErrIsRecorded<R>(trace: seq<Dial<R>>)
    requires AllWellRecorded(trace)
    ensures LastErr(trace).None? <==> AllFollowed(trace)
    ensures LastErr(trace).Some? ==> Recorded(trace, LastErr(trace).value)
    ensures LastErr(trace).Some? ==> LastErr(trace).value != NoReachableEndpoints && LastErr(trace).value != SeqUncertain
  {
    if trace != [] {
      var before := trace[..|trace| - 1];
      LastErrIsRecorded(before);
      assert forall i :: 0 <= i < |before| ==> before[i] == trace[i];
      if LastErr(before).Some? { RecordedOfPrefix(before, trace, LastErr(before).value); }
    }
  }

  lemma {:induction false} SignalIsRecorded<R>(trace: seq<Dial<R>>)
    requires AllWellRecorded(trace)
    ensures Signal(trace).Some? <==> Signalled(trace)
    ensures Signal(trace).Some? ==> Signal(trace).value.code == FailedPrecondition && Recorded(trace, Rpc(Signal(trace).value))
  {
    if trace != [] {
      var before := trace[..|trace| - 1];
      SignalIsRecorded(before);
      assert forall i :: 0 <= i < |before| ==> before[i] == trace[i];
      if Signal(before).Some? { RecordedOfPrefix(before, trace, Rpc(Signal(before).value)); }
    }
  }

  /** Dial `i` is the last to have recorded an error. */
  predicate LastToRecord<R>(trace: seq<Dial<R>>, i: nat) {
    i < |trace| && trace[i].recorded.Some? && forall j :: i < j < |trace| ==> trace[j].recorded.None?
  }

  /** Dial `i` is the last to have signalled an election. */
  predicate LastToSignal<R>(trace: seq<Dial<R>>, i: nat) {
    i < |trace| && trace[i].signalled && forall j :: i < j < |trace| ==> !trace[j].signalled
  }

  lemma {:induction false} SlotsAt<R>(trace: seq<Dial<R>>, i: nat)
    requires AllWellRecorded(trace)
    ensures LastToRecord(trace, i) ==> LastErr(trace) == trace[i].recorded
    ensures LastToSignal(trace, i) ==> Signal(trace).Some? && trace[i].recorded == Some(Rpc(Signal(trace).value))
  {
    if trace != [] && i < |trace| - 1 {
      var before := trace[..|trace| - 1];
      SlotsAt(before, i);
      assert LastToRecord(trace, i) ==> LastToRecord(before, i) && trace[|trace| - 1].recorded.None?;
      assert LastToSignal(trace, i) ==> LastToSignal(before, i) && !trace[|trace| - 1].signalled;
    }
  }

  /** An error that is somebody's answer, rather than trouble with the connection. */
  predicate Definite(e: ClientError) {
    !e.Transport? && !e.TransportFanout? && !(e.Rpc? && e.status.code in {Unavailable, DeadlineExceeded})
  }

  /** Which error is reported, by rank: the last one recorded if the server spoke, else the
      last sign of an election, else the last connection problem. */
  lemma {:induction false} SurfacedByRank<R>(seeds: seq<seq<Endpoint>>, b: Budget, cap: nat, trace: seq<Dial<R>>, i: nat, j: nat)
    requires Legal(seeds, b, cap, trace) && LastToRecord(trace, i) && !Terminal(trace[|trace| - 1].outcome)
    ensures Definite(trace[i].recorded.value) ==> Surfaced(seeds, trace) == trace[i].recorded.value
    ensures !Definite(trace[i].recorded.value) && LastToSignal(trace, j) ==> Some(Surfaced(seeds, trace)) == trace[j].recorded
    ensures !Signalled(trace) ==> Surfaced(seeds, trace) == trace[i].recorded.value
  {
    SlotsOfLoop(seeds, trace);
    LegalIsWellRecorded(seeds, b, cap, trace);
    SignalIsRecorded(trace);
    SlotsAt(trace, i);
    SlotsAt(trace, j);
  }

  /** A call that ends in failure reports an error recorded during the call, and never a
      transport problem once some server signalled an election.  The fallback
      "no reachable endpoints" is reported exactly when every dial was a followed hint. */
  lemma {:induction false} SurfacedErrorIsHonest<R>(seeds: seq<seq<Endpoint>>, b: Budget, cap: nat, trace: seq<Dial<R>>)
    requires Legal(seeds, b, cap, trace) && (trace != [] ==> !Terminal(trace[|trace| - 1].outcome))
    ensures Surfaced(seeds, trace) == NoReachableEndpoints <==> AllFollowed(trace)
    ensures Surfaced(seeds, trace) != NoReachableEndpoints ==> Recorded(trace, Surfaced(seeds, trace))
    ensures Signalled(trace) ==> Definite(Surfaced(seeds, trace))
    ensures Surfaced(seeds, trace) != SeqUncertain
  {
    SlotsOfLoop(seeds, trace);
    LegalIsWellRecorded(seeds, b, cap, trace);
    LastErrIsRecorded(trace);
    SignalIsRecorded(trace);
  }

  // ------------------------------------------------------------------
  // What the loops share
  // ------------------------------------------------------------------

  /** The failed-attempt cap is floored at the first seed's size, so that one sweep over a
      cold pool is always affordable. */
  function AttemptCap(policy: Policy, seeds: seq<seq<Endpoint>>): (cap: nat)
    ensures cap >= policy.maxAttempts && cap >= |SeedOf(seeds, 0)|
    ensures cap > policy.maxAttempts ==> cap == |SeedOf(seeds, 0)|
  {
    Max(policy.maxAttempts, |SeedOf(seeds, 0)|)
  }

  /** What a pass has left: queued endpoints plus the redirects it may still follow. */
  function PassMeasure(s: Loop): int { |s.queue| + MAX_LEADER_REDIRECTS - s.redirects }

  /** Every dial uses up some of the pass, so a pass ends whatever the peers answer. */
  lemma {:induction false} DialUsesUpPass<R>(s: Loop, b: Budget, cap: nat, d: Dial<R>)
    requires Admissible(s, b, cap, d)
    ensures PassMeasure(Record(s, d)) < PassMeasure(s)
  {
  }

  /** How one endpoint behaves when dialed: how long each phase takes, whether the
      connect succeeds, what the server answers, and the jitter of a later sleep. */
  datatype Attempt<R> = Attempt(timing: Timing, connectError: Option<AttemptError>, reply: R, jitter: nat)

  /** How long an attempt with this budget lasts. */
  function Took<R>(a: Attempt<R>, budget: nat): nat {
    if a.connectError.Some? then Min(a.timing.connectTook, budget) else Min(a.timing.connectTook + a.timing.rpcTook, budget)
  }

  datatype Ending<R> = Served(result: R) | Failed(err: ClientError) | OutOfScript

  /** What the loop does after a dial. */
  datatype Next = Continue | EndPass | EndCall

  /** The hint caps: whether a hint is followed, ends the pass, or ends the call. */
  function OnHint(s: Loop): Next {
    if s.total >= MAX_TOTAL_LEADER_REDIRECTS then EndCall
    else if s.redirects >= MAX_LEADER_REDIRECTS then EndPass
    else Continue
  }

  /** The loop's bookkeeping for an outcome, given when the attempt ended and how long
      the loop would sleep after a transport failure. */
  function React<R>(s: Loop, e: Endpoint, now: nat, budget: nat, endedAt: nat, nap: nat, o: Outcome<R>): Dial<R> {
    var recorded: Option<ClientError> := match o
      case Ok(_) => None
      case Uncertain => None
      case Hint(_) => if OnHint(s).Continue? then None else Some(Rpc(REDIRECT_CAP))
      case NoLeaderYet(st) => Some(Rpc(st))
      case Unusable(st, _) => Some(Rpc(st))
      case Err(err) => Some(err);
    var signalled := o.NoLeaderYet? || (o.Unusable? && o.stale) || (o.Hint? && OnHint(s).EndPass?);
    Dial(s.pass, e, now, budget, endedAt, endedAt + nap, o, recorded, signalled)
  }

  /** There is something to dial and both the cap and the deadline allow it. */
  predicate Due(s: Loop, b: Budget, cap: nat, now: nat) {
    Pick(s.queue, s.visited).Some? && s.failed < cap && NextAttempt(b, now).Some?
  }

  /** A trace whose last dial did not end the call, seen at time `now`. */
  predicate Unsettled<R>(seeds: seq<seq<Endpoint>>, b: Budget, cap: nat, trace: seq<Dial<R>>, now: nat) {
    var s := LoopAfter(seeds, trace);
    && Legal(seeds, b, cap, trace)
    && (trace != [] ==> !Terminal(trace[|trace| - 1].outcome))
    && s.wokeAt <= now <= b.deadline && s.redirects <= MAX_LEADER_REDIRECTS
  }

  /** A trace the loop is still extending: the next dial may belong to `pass`. */
  predicate Open<R>(seeds: seq<seq<Endpoint>>, b: Budget, cap: nat, trace: seq<Dial<R>>, pass: nat, now: nat) {
    Unsettled(seeds, b, cap, trace, now) && GoesOnIn(LoopAfter(seeds, trace), cap, trace, pass)
  }

  lemma {:induction false} StaysOpen<R>(seeds: seq<seq<Endpoint>>, b: Budget, cap: nat, longer: seq<Dial<R>>, s: Loop, d: Dial<R>)
    requires longer != [] && longer[|longer| - 1] == d && !Terminal(d.outcome)
    requires Legal(seeds, b, cap, longer) && LoopAfter(seeds, longer) == Record(s, d)
    requires Admissible(s, b, cap, d) && s.redirects <= MAX_LEADER_REDIRECTS
    ensures Unsettled(seeds, b, cap, longer, d.wokeAt)
    ensures !CutShort(longer) ==> Open(seeds, b, cap, longer, s.pass, d.wokeAt)
  {
  }

  lemma {:induction false} OpenAppend<R>(seeds: seq<seq<Endpoint>>, b: Budget, cap: nat, trace: seq<Dial<R>>, now: nat, s: Loop, d: Dial<R>)
    requires Open(seeds, b, cap, trace, s.pass, now) && s == Enter(LoopAfter(seeds, trace), seeds, s.pass)
    requires Admissible(s, b, cap, d) && d.pass == s.pass && s.redirects <= MAX_LEADER_REDIRECTS
    ensures Legal(seeds, b, cap, trace + [d]) && LoopAfter(seeds, trace + [d]) == Record(s, d)
    ensures !Terminal(d.outcome) ==> Unsettled(seeds, b, cap, trace + [d], d.wokeAt)
    ensures !Terminal(d.outcome) && (d.outcome.Hint? ==> OnHint(s).Continue?) ==> Open(seeds, b, cap, trace + [d], s.pass, d.wokeAt)
    ensures d.outcome.Hint? && !OnHint(s).Continue? ==> CutShort(trace + [d])
  {
    LegalAppend(seeds, b, cap, trace, d);
    if !Terminal(d.outcome) { StaysOpen(seeds, b, cap, trace + [d], s, d); }
  }

  /** When the loop has come to its `i`-th dial, if a pass that found `before` began at `began`. */
  function ComesTo<R>(before: seq<Dial<R>>, trace: seq<Dial<R>>, began: nat, i: nat): nat
    requires i <= |trace|
  {
    if i <= |before| then began else trace[i - 1].wokeAt
  }

  function StandsAt<R>(before: seq<Dial<R>>, trace: seq<Dial<R>>, began: nat): nat { ComesTo(before, trace, began, |trace|) }

  /** The dials of a pass follow one another without a pause. */
  ghost predicate InStep<R>(before: seq<Dial<R>>, trace: seq<Dial<R>>, pass: nat, began: nat) {
    && before <= trace
    && forall i :: |before| <= i < |trace| ==> trace[i].pass == pass && trace[i].startedAt == ComesTo(before, trace, began, i)
  }

  lemma {:induction false} StepsOn<R>(before: seq<Dial<R>>, trace: seq<Dial<R>>, pass: nat, began: nat, d: Dial<R>)
    requires InStep(before, trace, pass, began) && d.pass == pass && d.startedAt == StandsAt(before, trace, began)
    ensures InStep(before, trace + [d], pass, began) && StandsAt(before, trace + [d], began) == d.wokeAt
  {
    var longer := trace + [d];
    forall i | |before| <= i < |longer|
      ensures longer[i].pass == pass && longer[i].startedAt == ComesTo(before, longer, began, i)
    {
      if i < |trace| { assert longer[i] == trace[i] && ComesTo(before, longer, began, i) == ComesTo(before, trace, began, i); }
    }
  }

  /** `longer` has one more dial, made at once in `pass`. */
  ghost predicate OneMore<R>(trace: seq<Dial<R>>, now: nat, longer: seq<Dial<R>>, later: nat, pass: nat) {
    && |longer| == |trace| + 1 && longer[..|trace|] == trace && longer[|trace|].pass == pass
    && longer[|trace|].startedAt == now && later == longer[|trace|].wokeAt
  }

  lemma {:induction false} TurnStepsOn<R>(before: seq<Dial<R>>, trace: seq<Dial<R>>, longer: seq<Dial<R>>, pass: nat, began: nat, later: nat)
    requires InStep(before, trace, pass, began) && OneMore(trace, StandsAt(before, trace, began), longer, later, pass)
    ensures InStep(before, longer, pass, began) && later == StandsAt(before, longer, began)
  {
    assert longer == trace + [longer[|trace|]];
    StepsOn(before, trace, pass, began, longer[|trace|]);
  }

  /** When dial `i` starts: the first one at once, the next one of a pass right after its
      predecessor, and the first of a further pass after the nap between the two. */
  function StartOf<R>(policy: Policy, startedAt: nat, naps: seq<nat>, trace: seq<Dial<R>>, i: nat): nat
    requires i < |trace| && (i > 0 ==> trace[i - 1].pass < |naps|)
  {
    if i == 0 then startedAt
    else
      var last := trace[i - 1];
      if trace[i].pass == last.pass then last.wokeAt else WakesFor(policy, startedAt, naps, last)
  }

  /** When the nap after a pass that ended with `last` is over. */
  function WakesFor<R>(policy: Policy, startedAt: nat, naps: seq<nat>, last: Dial<R>): nat
    requires last.pass < |naps|
  {
    last.wokeAt + Nap(Start(policy, startedAt), last.wokeAt, policy.baseBackoff, last.pass, naps[last.pass])
  }

  predicate PacedAt<R>(policy: Policy, startedAt: nat, naps: seq<nat>, trace: seq<Dial<R>>, i: nat)
    requires i < |trace|
  {
    && trace[i].pass < |naps| && (i > 0 ==> trace[i - 1].pass < |naps|)
    && trace[i].startedAt == StartOf(policy, startedAt, naps, trace, i)
  }

  ghost predicate Paced<R>(policy: Policy, startedAt: nat, naps: seq<nat>, trace: seq<Dial<R>>) {
    forall i: nat :: i < |trace| ==> PacedAt(policy, startedAt, naps, trace, i)
  }

  /** The call is on time for its next pass: `now` is its start, or the end of the nap after
      its last pass. */
  ghost predicate OnTimeFor<R>(policy: Policy, startedAt: nat, naps: seq<nat>, trace: seq<Dial<R>>, pass: nat, now: nat) {
    && Paced(policy, startedAt, naps, trace)
    && if trace == [] then pass == 0 && now == startedAt
       else trace[|trace| - 1].pass < |naps| && trace[|trace| - 1].pass < pass && now == WakesFor(policy, startedAt, naps, trace[|trace| - 1])
  }

  lemma {:induction false} PassIsPaced<R>(policy: Policy, startedAt: nat, naps: seq<nat>, before: seq<Dial<R>>, trace: seq<Dial<R>>, pass: nat, began: nat)
    requires OnTimeFor(policy, startedAt, naps, before, pass, began) && InStep(before, trace, pass, began) && pass < |naps|
    ensures Paced(policy, startedAt, naps, trace)
    ensures |trace| > |before| ==> trace[|trace| - 1].pass == pass
  {
    forall i: nat | i < |trace| ensures PacedAt(policy, startedAt, naps, trace, i) {
      if i < |before| {
        assert PacedAt(policy, startedAt, naps, before, i);
        assert trace[i] == before[i] && (i > 0 ==> trace[i - 1] == before[i - 1]);
      } else if i == |before| {
        FirstIsPaced(policy, startedAt, naps, before, trace, pass, began);
      }
    }
  }

  lemma {:induction false} FirstIsPaced<R>(policy: Policy, startedAt: nat, naps: seq<nat>, before: seq<Dial<R>>, trace: seq<Dial<R>>, pass: nat, began: nat)
    requires OnTimeFor(policy, startedAt, naps, before, pass, began) && pass < |naps|
    requires before < trace && trace[|before|].pass == pass && trace[|before|].startedAt == began
    ensures PacedAt(policy, startedAt, naps, trace, |before|)
  {
    if before != [] {
      assert PacedAt(policy, startedAt, naps, before, |before| - 1);
      assert trace[|before| - 1] == before[|before| - 1];
    }
  }

  /** Within the policy: no attempt gets more than its share, and nothing outlasts the call's
      deadline. */
  predicate WithinPolicy<R>(policy: Policy, startedAt: nat, d: Dial<R>) {
    d.budget <= policy.perAttempt && d.wokeAt <= startedAt + policy.overall
  }

  lemma {:induction false} AllWithinPolicy<R>(policy: Policy, startedAt: nat, seeds: seq<seq<Endpoint>>, cap: nat, trace: seq<Dial<R>>)
    requires Legal(seeds, Start(policy, startedAt), cap, trace)
    ensures forall i :: 0 <= i < |trace| ==> WithinPolicy(policy, startedAt, trace[i])
  {
    forall i | 0 <= i < |trace| ensures WithinPolicy(policy, startedAt, trace[i]) { TimedAt(seeds, Start(policy, startedAt), cap, trace, i); }
  }

  /** Why a pass stopped. */
  datatype Stop = PassOver | CallOver | Answered | RanOut

  /** What stays queued after dialing, with the hint to follow, if any, in front. */
  function Requeued(s: Loop, hint: Option<Endpoint>): seq<Endpoint> {
    (if hint.Some? then [hint.value] else []) + Rest(s.queue, s.visited)
  }

  /** How many passes a call with this trace can have begun. */
  predicate PassesFit<R>(trace: seq<Dial<R>>, passes: nat) {
    passes <= if trace == [] then 1 else trace[|trace| - 1].pass + 2
  }

  lemma {:induction false} PassFits<R>(seeds: seq<seq<Endpoint>>, trace: seq<Dial<R>>, pass: nat)
    requires pass <= LoopAfter(seeds, trace).pass + (if trace == [] then 0 else 1)
    ensures PassesFit(trace, pass + 1)
  {
    if trace != [] { assert LoopAfter(seeds, trace).pass == trace[|trace| - 1].pass; }
  }

  /** The call's redirects are used up: its last dial brought one hint too many. */
  predicate OutOfRedirects<R>(trace: seq<Dial<R>>) { CutShort(trace) && !trace[|trace| - 1].signalled }

  /** Failing was right: the call's redirects ran out, or the last pass had nothing left to
      dial and another was not due because no election was signalled or time was up. */
  predicate GaveUp<R>(trace: seq<Dial<R>>, s: Loop, b: Budget, cap: nat, now: nat) {
    OutOfRedirects(trace) || (!Due(s, b, cap, now) && (s.sawSignal ==> NextAttempt(b, now).None?))
  }

  /** No dial follows one that settled the call. */
  lemma {:induction false} NothingFollowsTerminal<R>(seeds: seq<seq<Endpoint>>, b: Budget, cap: nat, trace: seq<Dial<R>>, i: nat)
    requires Legal(seeds, b, cap, trace) && i + 1 < |trace|
    ensures !Terminal(trace[i].outcome)
  {
    var before := trace[..|trace| - 1];
    if i + 1 < |before| {
      NothingFollowsTerminal(seeds, b, cap, before, i);
    }
  }

  /** A call that gave up, read off its trace: it met one hint too many, or time was up, or
      nobody in its last pass signalled an election and either the failed-attempt cap was
      reached or the pass had dialed its whole seed and every hint it followed. */
  lemma {:induction false} GivingUpMeans<R>(seeds: seq<seq<Endpoint>>, b: Budget, cap: nat, trace: seq<Dial<R>>, pass: nat, s: Loop, now: nat)
    requires Legal(seeds, b, cap, trace) && GaveUp(trace, s, b, cap, now)
    requires LoopAfter(seeds, trace).pass <= pass && s == Enter(LoopAfter(seeds, trace), seeds, pass)
    ensures var mine := InPass(trace, pass);
            || (trace != [] && trace[|trace| - 1].outcome.Hint? && Pivots(trace[..|trace| - 1]) == MAX_TOTAL_LEADER_REDIRECTS)
            || now >= b.deadline
            || (!SomeSignal(mine) && (Failures(trace) >= cap || Members(SeedOf(seeds, pass)) + HintsOf(mine) <= EndpointsOf(mine)))
  {
    CountersTrackTrace(seeds, b, cap, trace);
    PassState(seeds, b, cap, trace, pass);
    if OutOfRedirects(trace) {
      OutcomeIsBooked(seeds, b, cap, trace, |trace| - 1);
      CountersTrackTrace(seeds, b, cap, trace[..|trace| - 1]);
    } else {
      RestKeeps(s.queue, s.visited);
      if pass == LoopAfter(seeds, trace).pass { PassIsDone(seeds, b, cap, trace); }
    }
  }

  /** One sweep over a cold pool reaches everyone: a call that fails in its first pass, with
      time left and its redirects not used up, has dialed every endpoint it started from. */
  lemma {:induction false} ColdSweepIsComplete<R>(seeds: seq<seq<Endpoint>>, b: Budget, cap: nat, trace: seq<Dial<R>>, s: Loop, now: nat)
    requires Legal(seeds, b, cap, trace) && GaveUp(trace, s, b, cap, now) && cap >= |SeedOf(seeds, 0)|
    requires LoopAfter(seeds, trace).pass == 0 && s == LoopAfter(seeds, trace)
    requires now < b.deadline && !OutOfRedirects(trace)
    ensures Members(SeedOf(seeds, 0)) <= EndpointsOf(InPass(trace, 0))
  {
    PassIsDone(seeds, b, cap, trace);
    if s.failed >= cap {
      CountersTrackTrace(seeds, b, cap, trace);
      OnePassOnly(seeds, b, cap, trace);
      FirstPassCoversSeed(seeds, b, cap, trace);
    }
  }

  lemma {:induction false} OnePassOnly<R>(seeds: seq<seq<Endpoint>>, b: Budget, cap: nat, trace: seq<Dial<R>>)
    requires Legal(seeds, b, cap, trace) && LoopAfter(seeds, trace).pass == 0
    ensures InPass(trace, 0) == trace
  {
    if trace != [] { OnePassOnly(seeds, b, cap, trace[..|trace| - 1]); }
  }
}
