/** What the stress supervisor's online checks mean, stated over the whole sequence of
    events it has consumed rather than over the few maxima and lists it keeps. */
module Supervision {
  import opened Wrappers

  datatype Sample = Sample(client: nat, batch: nat, ts: nat, issuedAt: int, recvTime: int, isLast: bool)

  datatype ChaosKind = LeaderKill | LeaderPause | FailpointArm | FailpointDisarm

  datatype Window = Window(kind: ChaosKind, startedAt: int, endedAt: int, grace: nat)

  datatype Incident = DeadlineExceeded(startedAt: int, at: int) | UnexpectedServerExit(at: int)

  datatype Event =
    | Issued(sample: Sample)
    | Chaos(window: Window, applied: bool)
    | Liveness(incident: Incident)
    | End

  datatype Violation =
    | Monotonicity(prev: nat, got: nat, sample: Sample)
    | FenceFreshness(preWindow: nat, firstPostWindow: nat, kind: ChaosKind)
    | CrossClientRealtime(prior: nat, got: nat, sample: Sample)
    | BatchOrdering(client: nat, batch: nat, values: seq<nat>)
    | LivenessLost(incident: Incident)

  function PostGrace(w: Window): int { w.endedAt + w.grace }

  predicate Contains(w: Window, t: int) { w.startedAt <= t < PostGrace(w) }

  predicate ChangesLeader(w: Window) { w.kind.LeaderKill? || w.kind.LeaderPause? }

  // ------------------------------------------------------------------
  // Summaries of a history
  // ------------------------------------------------------------------

  /** Highest timestamp so far, zero when there is none. */
  function MaxTs(h: seq<Event>): nat {
    if h == [] then 0
    else
      var m, e := MaxTs(h[..|h| - 1]), h[|h| - 1];
      if e.Issued? && e.sample.ts > m then e.sample.ts else m
  }

  /** Highest timestamp of one client so far, zero when there is none. */
  function ClientMax(h: seq<Event>, c: nat): nat {
    if h == [] then 0
    else
      var m, e := ClientMax(h[..|h| - 1], c), h[|h| - 1];
      if e.Issued? && e.sample.client == c && e.sample.ts > m then e.sample.ts else m
  }

  function Seen(h: seq<Event>): set<nat> {
    if h == [] then {}
    else
      var s, e := Seen(h[..|h| - 1]), h[|h| - 1];
      if e.Issued? then s + {e.sample.ts} else s
  }

  datatype Completed = Completed(ts: nat, recvTime: int)

  /** The first sample to reach the highest timestamp. */
  function Highest(h: seq<Event>): Option<Completed> {
    if h == [] then None
    else
      var p, e := Highest(h[..|h| - 1]), h[|h| - 1];
      if e.Issued? && !(p.Some? && e.sample.ts <= p.value.ts) then Some(Completed(e.sample.ts, e.sample.recvTime)) else p
  }

  /** The open part of a client's batch: its timestamps since the last closing sample. */
  function OpenValues(h: seq<Event>, c: nat, b: nat): seq<nat> {
    if h == [] then []
    else
      var v, e := OpenValues(h[..|h| - 1], c, b), h[|h| - 1];
      if e.Issued? && e.sample.client == c && e.sample.batch == b then
        if e.sample.isLast then [] else v + [e.sample.ts]
      else v
  }

  function AppliedWindows(h: seq<Event>): seq<Window> {
    if h == [] then []
    else
      var ws, e := AppliedWindows(h[..|h| - 1]), h[|h| - 1];
      if e.Chaos? && e.applied then ws + [e.window] else ws
  }

  /** A leadership change whose fence has yet to be judged. */
  datatype Fence = Fence(window: Window, preWindow: nat)

  predicate Due(f: Fence, x: Sample) { x.recvTime >= PostGrace(f.window) }

  /** Drop the fences that `x` judges. */
  function Undue(fences: seq<Fence>, x: Sample): seq<Fence> {
    if fences == [] then []
    else
      var rest, f := Undue(fences[..|fences| - 1], x), fences[|fences| - 1];
      if Due(f, x) then rest else rest + [f]
  }

  function Fences(h: seq<Event>): seq<Fence> {
    if h == [] then []
    else
      var fs, e := Fences(h[..|h| - 1]), h[|h| - 1];
      match e
      case Issued(x) => Undue(fs, x)
      case Chaos(w, applied) => if applied && ChangesLeader(w) then fs + [Fence(w, MaxTs(h[..|h| - 1]))] else fs
      case _ => fs
  }

  // ------------------------------------------------------------------
  // What each event adds to the report
  // ------------------------------------------------------------------

  function Repeats(h: seq<Event>, x: Sample): seq<Violation> {
    (if x.ts <= ClientMax(h, x.client) then [Monotonicity(ClientMax(h, x.client), x.ts, x)] else [])
    + (if x.ts in Seen(h) then [Monotonicity(x.ts, x.ts, x)] else [])
  }

  function Broken(fences: seq<Fence>, x: Sample): seq<Violation> {
    if fences == [] then []
    else
      var rest, f := Broken(fences[..|fences| - 1], x), fences[|fences| - 1];
      if Due(f, x) && x.ts <= f.preWindow then rest + [FenceFreshness(f.preWindow, x.ts, f.window.kind)] else rest
  }

  predicate Covered(fences: seq<Fence>, x: Sample) {
    exists i :: 0 <= i < |fences| && x.recvTime >= fences[i].window.startedAt
  }

  function Inversions(prior: Option<Completed>, quiet: bool, x: Sample): seq<Violation> {
    if !quiet && prior.Some? && x.issuedAt >= prior.value.recvTime && x.recvTime >= prior.value.recvTime && x.ts <= prior.value.ts
    then [CrossClientRealtime(prior.value.ts, x.ts, x)] else []
  }

  predicate Contiguous(values: seq<nat>) {
    forall i :: 0 <= i < |values| - 1 ==> values[i + 1] == values[i] + 1
  }

  function Disorder(h: seq<Event>, x: Sample): seq<Violation> {
    var values := OpenValues(h, x.client, x.batch) + [x.ts];
    if x.isLast && !Contiguous(values) then [BatchOrdering(x.client, x.batch, values)] else []
  }

  predicate Explains(w: Window, incident: Incident) {
    match incident
    case DeadlineExceeded(startedAt, at) => w.startedAt < at && startedAt < PostGrace(w)
    case UnexpectedServerExit(at) => Contains(w, at)
  }

  predicate Attributable(ws: seq<Window>, incident: Incident) {
    exists i :: 0 <= i < |ws| && Explains(ws[i], incident)
  }

  function AddedBySample(h: seq<Event>, x: Sample): seq<Violation> {
    Repeats(h, x) + Broken(Fences(h), x)
    + Inversions(Highest(h), Repeats(h, x) != [] || Covered(Fences(h), x), x) + Disorder(h, x)
  }

  function Added(h: seq<Event>, e: Event): seq<Violation> {
    match e
    case Issued(x) => AddedBySample(h, x)
    case Liveness(incident) => if Attributable(AppliedWindows(h), incident) then [] else [LivenessLost(incident)]
    case _ => []
  }

  /** The report after `h`. */
  function Violations(h: seq<Event>): seq<Violation> {
    if h == [] then [] else Violations(h[..|h| - 1]) + Added(h[..|h| - 1], h[|h| - 1])
  }

  lemma {:induction false} LastAdds(h: seq<Event>)
    requires h != []
    ensures Violations(h) == Violations(h[..|h| - 1]) + Added(h[..|h| - 1], h[|h| - 1])
  {
  }

  // ------------------------------------------------------------------
  // The summaries are what they say
  // ------------------------------------------------------------------

  predicate IsSample(h: seq<Event>, i: nat) { i < |h| && h[i].Issued? }

  lemma {:induction false} ClientMaxIsMax(h: seq<Event>, c: nat)
    ensures forall i: nat :: IsSample(h, i) && h[i].sample.client == c ==> h[i].sample.ts <= ClientMax(h, c)
    ensures ClientMax(h, c) > 0 ==> exists i: nat :: IsSample(h, i) && h[i].sample.client == c && h[i].sample.ts == ClientMax(h, c)
  {
    if h != [] {
      var n := |h| - 1;
      ClientMaxIsMax(h[..n], c);
      assert forall i: nat :: IsSample(h[..n], i) ==> IsSample(h, i) && h[i] == h[..n][i];
      if ClientMax(h, c) > 0 {
        if ClientMax(h, c) == ClientMax(h[..n], c) {
          var i: nat :| IsSample(h[..n], i) && h[..n][i].sample.client == c && h[..n][i].sample.ts == ClientMax(h[..n], c);
          assert IsSample(h, i);
        } else {
          assert IsSample(h, n);
        }
      }
      forall i: nat | IsSample(h, i) && h[i].sample.client == c ensures h[i].sample.ts <= ClientMax(h, c) {
        if i < n { assert IsSample(h[..n], i); }
      }
    }
  }

  lemma {:induction false} MaxTsIsMax(h: seq<Event>)
    ensures forall i: nat :: IsSample(h, i) ==> h[i].sample.ts <= MaxTs(h)
    ensures MaxTs(h) > 0 ==> exists i: nat :: IsSample(h, i) && h[i].sample.ts == MaxTs(h)
  {
    if h != [] {
      var n := |h| - 1;
      MaxTsIsMax(h[..n]);
      assert forall i: nat :: IsSample(h[..n], i) ==> IsSample(h, i) && h[i] == h[..n][i];
      if MaxTs(h) > 0 {
        if MaxTs(h) == MaxTs(h[..n]) {
          var i: nat :| IsSample(h[..n], i) && h[..n][i].sample.ts == MaxTs(h[..n]);
          assert IsSample(h, i);
        } else {
          assert IsSample(h, n);
        }
      }
      forall i: nat | IsSample(h, i) ensures h[i].sample.ts <= MaxTs(h) {
        if i < n { assert IsSample(h[..n], i); }
      }
    }
  }

  lemma {:induction false} SeenIsSeen(h: seq<Event>, ts: nat)
    ensures ts in Seen(h) <==> exists i: nat :: IsSample(h, i) && h[i].sample.ts == ts
  {
    if h != [] {
      var n := |h| - 1;
      SeenIsSeen(h[..n], ts);
      if ts in Seen(h[..n]) {
        var i: nat :| IsSample(h[..n], i) && h[..n][i].sample.ts == ts;
        assert IsSample(h, i);
      } else if ts in Seen(h) {
        assert IsSample(h, n);
      }
      if i: nat :| IsSample(h, i) && h[i].sample.ts == ts {
        if i < n { assert IsSample(h[..n], i); }
      }
    }
  }

  // ------------------------------------------------------------------
  // Monotonicity
  // ------------------------------------------------------------------

  function CountMonotonicity(vs: seq<Violation>): nat {
    if vs == [] then 0
    else CountMonotonicity(vs[..|vs| - 1]) + (if vs[|vs| - 1].Monotonicity? then 1 else 0)
  }

  lemma {:induction false} CountMonotonicityAppend(a: seq<Violation>, b: seq<Violation>)
    ensures CountMonotonicity(a + b) == CountMonotonicity(a) + CountMonotonicity(b)
  {
    if b == [] {
      assert a + b == a;
    } else {
      CountMonotonicityAppend(a, b[..|b| - 1]);
      assert (a + b)[..|a + b| - 1] == a + b[..|b| - 1];
    }
  }

  lemma {:induction false} NoMonotonicity(vs: seq<Violation>)
    requires forall i :: 0 <= i < |vs| ==> !vs[i].Monotonicity?
    ensures CountMonotonicity(vs) == 0
  {
    if vs != [] { NoMonotonicity(vs[..|vs| - 1]); }
  }

  lemma {:induction false} BrokenAreFences(fences: seq<Fence>, x: Sample)
    ensures forall i :: 0 <= i < |Broken(fences, x)| ==> Broken(fences, x)[i].FenceFreshness?
  {
    if fences != [] { BrokenAreFences(fences[..|fences| - 1], x); }
  }

  /** Sample `i` does not rise above its client's earlier ones. */
  predicate Falls(h: seq<Event>, i: nat) {
    IsSample(h, i) && h[i].sample.ts <= ClientMax(h[..i], h[i].sample.client)
  }

  /** Sample `i` repeats a timestamp anyone was given before. */
  predicate Duplicates(h: seq<Event>, i: nat) {
    IsSample(h, i) && h[i].sample.ts in Seen(h[..i])
  }

  function Total(counts: seq<nat>): nat {
    if counts == [] then 0 else Total(counts[..|counts| - 1]) + counts[|counts| - 1]
  }

  function OffencesAt(h: seq<Event>, i: nat): nat {
    (if Falls(h, i) then 1 else 0) + (if Duplicates(h, i) then 1 else 0)
  }

  /** Per event, whether it falls plus whether it duplicates. */
  function Offences(h: seq<Event>): seq<nat> { seq(|h|, i requires 0 <= i < |h| => OffencesAt(h, i)) }

  lemma {:induction false} SampleOffences(h: seq<Event>, x: Sample)
    ensures CountMonotonicity(AddedBySample(h, x))
            == (if x.ts <= ClientMax(h, x.client) then 1 else 0) + (if x.ts in Seen(h) then 1 else 0)
  {
    var a, b := Repeats(h, x), Broken(Fences(h), x);
    var c := Inversions(Highest(h), a != [] || Covered(Fences(h), x), x);
    var d := Disorder(h, x);
    BrokenAreFences(Fences(h), x);
    NoMonotonicity(b);
    NoMonotonicity(c);
    NoMonotonicity(d);
    CountMonotonicityAppend(a + b + c, d);
    CountMonotonicityAppend(a + b, c);
    CountMonotonicityAppend(a, b);
    RepeatsCount(h, x);
  }

  lemma {:induction false} RepeatsCount(h: seq<Event>, x: Sample)
    ensures CountMonotonicity(Repeats(h, x))
            == (if x.ts <= ClientMax(h, x.client) then 1 else 0) + (if x.ts in Seen(h) then 1 else 0)
  {
    var a := if x.ts <= ClientMax(h, x.client) then [Monotonicity(ClientMax(h, x.client), x.ts, x)] else [];
    var b := if x.ts in Seen(h) then [Monotonicity(x.ts, x.ts, x)] else [];
    CountMonotonicityAppend(a, b);
  }

  lemma {:induction false} EventOffences(h: seq<Event>, n: nat)
    requires n < |h|
    ensures CountMonotonicity(Added(h[..n], h[n])) == OffencesAt(h, n)
  {
    if h[n].Issued? {
      SampleOffences(h[..n], h[n].sample);
    } else {
      NoMonotonicity(Added(h[..n], h[n]));
    }
  }

  /** Monotonicity violations that event `i` adds. */
  function AddedCount(h: seq<Event>, i: nat): nat
    requires i < |h|
  {
    CountMonotonicity(Added(h[..i], h[i]))
  }

  lemma {:induction false} CountGrows(h: seq<Event>, n: nat)
    requires n < |h|
    ensures CountMonotonicity(Violations(h[..n + 1])) == CountMonotonicity(Violations(h[..n])) + AddedCount(h, n)
  {
    var upTo := h[..n + 1];
    assert upTo[..n] == h[..n];
    LastAdds(upTo);
    CountMonotonicityAppend(Violations(h[..n]), Added(h[..n], h[n]));
  }

  /** What adds up step by step adds up in total. */
  lemma {:induction false} StepsAddUp(sums: seq<nat>, steps: seq<nat>, n: nat)
    requires |sums| == |steps| + 1 && sums[0] == 0 && n <= |steps|
    requires forall i :: 0 <= i < |steps| ==> sums[i + 1] == sums[i] + steps[i]
    ensures sums[n] == Total(steps[..n])
  {
    if n > 0 {
      StepsAddUp(sums, steps, n - 1);
      assert steps[..n][..n - 1] == steps[..n - 1];
      assert sums[n - 1 + 1] == sums[n - 1] + steps[n - 1];
    }
  }

  /** The number of monotonicity violations after each number of events. */
  function Sums(h: seq<Event>): seq<nat> {
    seq(|h| + 1, i requires 0 <= i <= |h| => CountMonotonicity(Violations(h[..i])))
  }

  /** The report holds one monotonicity violation for each sample that does not rise above
      its client's earlier ones and one for each that repeats a timestamp. */
  lemma {:induction false} MonotonicityCount(h: seq<Event>)
    ensures CountMonotonicity(Violations(h)) == Total(Offences(h))
  {
    forall i | 0 <= i < |h| ensures Sums(h)[i + 1] == Sums(h)[i] + Offences(h)[i] {
      CountGrows(h, i);
      EventOffences(h, i);
    }
    StepsAddUp(Sums(h), Offences(h), |h|);
    assert h[..|h|] == h && Offences(h)[..|h|] == Offences(h);
  }

  /** Every client sees positive, strictly increasing timestamps and no two samples agree. */
  ghost predicate CleanHistory(h: seq<Event>) {
    && (forall i: nat :: IsSample(h, i) ==> h[i].sample.ts > 0)
    && (forall i: nat, j: nat :: i < j && IsSample(h, i) && IsSample(h, j) ==>
          && h[i].sample.ts != h[j].sample.ts
          && (h[i].sample.client == h[j].sample.client ==> h[i].sample.ts < h[j].sample.ts))
  }

  /** Event `j` is beyond reproach with respect to everything before it. */
  ghost predicate CleanAt(h: seq<Event>, j: nat) {
    IsSample(h, j) ==>
      && h[j].sample.ts > 0
      && forall i: nat :: i < j && IsSample(h, i) ==>
           && h[i].sample.ts != h[j].sample.ts
           && (h[i].sample.client == h[j].sample.client ==> h[i].sample.ts < h[j].sample.ts)
  }

  lemma {:induction false} CleanAtIff(h: seq<Event>, j: nat)
    requires j < |h|
    ensures CleanAt(h, j) <==> !Falls(h, j) && !Duplicates(h, j)
  {
    if IsSample(h, j) {
      var c, ts := h[j].sample.client, h[j].sample.ts;
      ClientMaxIsMax(h[..j], c);
      SeenIsSeen(h[..j], ts);
      assert forall i: nat :: i < j ==> (IsSample(h[..j], i) <==> IsSample(h, i)) && h[..j][i] == h[i];
    }
  }

  lemma {:induction false} TotalZero(counts: seq<nat>)
    ensures Total(counts) == 0 <==> forall i :: 0 <= i < |counts| ==> counts[i] == 0
  {
    if counts != [] {
      TotalZero(counts[..|counts| - 1]);
      assert forall i :: 0 <= i < |counts| - 1 ==> counts[..|counts| - 1][i] == counts[i];
    }
  }

  lemma {:induction false} OffencesZero(h: seq<Event>)
    ensures Total(Offences(h)) == 0 <==> forall j: nat :: j < |h| ==> CleanAt(h, j)
  {
    TotalZero(Offences(h));
    forall j: nat | j < |h| ensures Offences(h)[j] == 0 <==> CleanAt(h, j) { CleanAtIff(h, j); }
  }

  /** Silence about monotonicity means, and is only meant by, a clean history. */
  lemma {:induction false} MonotonicitySilentIff(h: seq<Event>)
    ensures CountMonotonicity(Violations(h)) == 0 <==> CleanHistory(h)
  {
    MonotonicityCount(h);
    OffencesZero(h);
    if CleanHistory(h) {
      forall j: nat | j < |h| ensures CleanAt(h, j) {}
    }
    if forall j: nat :: j < |h| ==> CleanAt(h, j) {
      forall i: nat | IsSample(h, i) ensures h[i].sample.ts > 0 { assert CleanAt(h, i); }
      forall i: nat, j: nat | i < j && IsSample(h, i) && IsSample(h, j)
        ensures h[i].sample.ts != h[j].sample.ts
        ensures h[i].sample.client == h[j].sample.client ==> h[i].sample.ts < h[j].sample.ts
      {
        assert CleanAt(h, j);
      }
    }
  }

  // ------------------------------------------------------------------
  // Fence freshness
  // ------------------------------------------------------------------

  /** Event `j` is an applied leadership change. */
  predicate LeaderWindow(h: seq<Event>, j: nat) {
    j < |h| && h[j].Chaos? && h[j].applied && (h[j].window.kind == LeaderKill || h[j].window.kind == LeaderPause)
  }

  /** Sample `i` arrived past the grace period of window `j`. */
  predicate LateFor(h: seq<Event>, j: nat, i: nat)
    requires LeaderWindow(h, j)
  {
    IsSample(h, i) && h[i].sample.recvTime >= h[j].window.endedAt + h[j].window.grace
  }

  /** Window `j` has seen no late sample before event `n`. */
  ghost predicate OpenUntil(h: seq<Event>, j: nat, n: nat) {
    LeaderWindow(h, j) && j < n && forall i: nat :: j < i < n ==> !LateFor(h, j, i)
  }

  /** Sample `i` is the first late one for window `j`: the only one that judges it. */
  ghost predicate Judges(h: seq<Event>, i: nat, j: nat) {
    OpenUntil(h, j, i) && LateFor(h, j, i)
  }

  /** The windows below `m` still open before event `n`, oldest first, each with the highest
      timestamp that arrived before it. */
  ghost function OpenFences(h: seq<Event>, n: nat, m: nat): seq<Fence>
    requires m <= |h|
  {
    if m == 0 then []
    else
      var rest := OpenFences(h, n, m - 1);
      if OpenUntil(h, m - 1, n) then rest + [Fence(h[m - 1].window, MaxTs(h[..m - 1]))] else rest
  }

  lemma {:induction false} OpenUntilPrefix(h: seq<Event>, j: nat, n: nat)
    requires n <= |h|
    ensures OpenUntil(h[..n], j, n) <==> OpenUntil(h, j, n)
  {
    if j < n && LeaderWindow(h, j) {
      assert forall i: nat :: i < n ==> (LateFor(h[..n], j, i) <==> LateFor(h, j, i));
    }
  }

  lemma {:induction false} OpenFencesPrefix(h: seq<Event>, n: nat, m: nat)
    requires m <= n <= |h|
    ensures OpenFences(h[..n], n, m) == OpenFences(h, n, m)
    decreases m
  {
    if m > 0 {
      OpenFencesPrefix(h, n, m - 1);
      OpenUntilPrefix(h, m - 1, n);
      assert h[..n][..m - 1] == h[..m - 1];
    }
  }

  /** A sample closes exactly the windows it is late for. */
  lemma {:induction false} SampleCloses(h: seq<Event>, n: nat, m: nat)
    requires m <= n && IsSample(h, n)
    ensures Undue(OpenFences(h, n, m), h[n].sample) == OpenFences(h, n + 1, m)
    decreases m
  {
    if m > 0 {
      SampleCloses(h, n, m - 1);
      var j := m - 1;
      assert OpenUntil(h, j, n + 1) <==> OpenUntil(h, j, n) && !LateFor(h, j, n);
      if OpenUntil(h, j, n) {
        var rest, f := OpenFences(h, n, j), Fence(h[j].window, MaxTs(h[..j]));
        assert OpenFences(h, n, m) == rest + [f];
        assert (rest + [f])[..|rest|] == rest;
      }
    }
  }

  /** Other events close none. */
  lemma {:induction false} OthersKeepOpen(h: seq<Event>, n: nat, m: nat)
    requires m <= n < |h| && !h[n].Issued?
    ensures OpenFences(h, n + 1, m) == OpenFences(h, n, m)
    decreases m
  {
    if m > 0 {
      OthersKeepOpen(h, n, m - 1);
      assert OpenUntil(h, m - 1, n + 1) <==> OpenUntil(h, m - 1, n);
    }
  }

  /** The list kept online is the list of unjudged windows; none is ever lost. */
  lemma {:induction false} FencesAreOpenWindows(h: seq<Event>)
    ensures Fences(h) == OpenFences(h, |h|, |h|)
  {
    if h != [] {
      var n := |h| - 1;
      FencesAreOpenWindows(h[..n]);
      OpenFencesPrefix(h, n, n);
      if h[n].Issued? {
        SampleCloses(h, n, n);
      } else {
        OthersKeepOpen(h, n, n);
      }
    }
  }

  /** The fence violations due at sample `i`: one for each window below `m` that `i` judges
      without rising above what was issued before the window. */
  ghost function FenceReportAt(h: seq<Event>, i: nat, m: nat): seq<Violation>
    requires m <= i && IsSample(h, i)
  {
    if m == 0 then []
    else
      var rest, j := FenceReportAt(h, i, m - 1), m - 1;
      if Judges(h, i, j) && h[i].sample.ts <= MaxTs(h[..j])
      then rest + [FenceFreshness(MaxTs(h[..j]), h[i].sample.ts, h[j].window.kind)] else rest
  }

  lemma {:induction false} BrokenAtSample(h: seq<Event>, i: nat, m: nat)
    requires m <= i && IsSample(h, i)
    ensures Broken(OpenFences(h, i, m), h[i].sample) == FenceReportAt(h, i, m)
    decreases m
  {
    if m > 0 {
      BrokenAtSample(h, i, m - 1);
      var j := m - 1;
      if OpenUntil(h, j, i) {
        var rest, f := OpenFences(h, i, j), Fence(h[j].window, MaxTs(h[..j]));
        assert OpenFences(h, i, m) == rest + [f];
        assert (rest + [f])[..|rest|] == rest;
      }
    }
  }

  function FenceOnly(vs: seq<Violation>): seq<Violation> {
    if vs == [] then []
    else
      var rest, v := FenceOnly(vs[..|vs| - 1]), vs[|vs| - 1];
      if v.FenceFreshness? then rest + [v] else rest
  }

  lemma {:induction false} FenceOnlyAppend(a: seq<Violation>, b: seq<Violation>)
    ensures FenceOnly(a + b) == FenceOnly(a) + FenceOnly(b)
  {
    if b == [] {
      assert a + b == a;
    } else {
      FenceOnlyAppend(a, b[..|b| - 1]);
      assert (a + b)[..|a + b| - 1] == a + b[..|b| - 1];
    }
  }

  lemma {:induction false} FenceOnlyAll(vs: seq<Violation>)
    requires forall i :: 0 <= i < |vs| ==> vs[i].FenceFreshness?
    ensures FenceOnly(vs) == vs
  {
    if vs != [] { FenceOnlyAll(vs[..|vs| - 1]); }
  }

  lemma {:induction false} FenceOnlyNone(vs: seq<Violation>)
    requires forall i :: 0 <= i < |vs| ==> !vs[i].FenceFreshness?
    ensures FenceOnly(vs) == []
  {
    if vs != [] { FenceOnlyNone(vs[..|vs| - 1]); }
  }

  predicate NoFences(vs: seq<Violation>) { forall i :: 0 <= i < |vs| ==> !vs[i].FenceFreshness? }

  lemma {:induction false} FenceOnlyMiddle(a: seq<Violation>, b: seq<Violation>, c: seq<Violation>, d: seq<Violation>)
    requires NoFences(a) && NoFences(c) && NoFences(d) && forall i :: 0 <= i < |b| ==> b[i].FenceFreshness?
    ensures FenceOnly(a + b + c + d) == b
  {
    FenceOnlyAll(b);
    FenceOnlyNone(a);
    FenceOnlyNone(c);
    FenceOnlyNone(d);
    FenceOnlyAppend(a + b + c, d);
    FenceOnlyAppend(a + b, c);
    FenceOnlyAppend(a, b);
  }

  lemma {:induction false} SampleFences(h: seq<Event>, x: Sample)
    ensures FenceOnly(AddedBySample(h, x)) == Broken(Fences(h), x)
  {
    BrokenAreFences(Fences(h), x);
    FenceOnlyMiddle(Repeats(h, x), Broken(Fences(h), x),
                    Inversions(Highest(h), Repeats(h, x) != [] || Covered(Fences(h), x), x), Disorder(h, x));
  }

  /** The fence violations of the first `n` events. */
  ghost function FenceReport(h: seq<Event>, n: nat): seq<Violation>
    requires n <= |h|
  {
    if n == 0 then []
    else FenceReport(h, n - 1) + (if IsSample(h, n - 1) then FenceReportAt(h, n - 1, n - 1) else [])
  }

  lemma {:induction false} FenceReportAtPrefix(h: seq<Event>, n: nat, i: nat, m: nat)
    requires m <= i < n <= |h| && IsSample(h, i)
    ensures FenceReportAt(h[..n], i, m) == FenceReportAt(h, i, m)
    decreases m
  {
    if m > 0 {
      FenceReportAtPrefix(h, n, i, m - 1);
      OpenUntilPrefix(h[..n], m - 1, i);
      OpenUntilPrefix(h, m - 1, i);
      assert h[..n][..i] == h[..i] && h[..n][..m - 1] == h[..m - 1];
    }
  }

  lemma {:induction false} FenceReportPrefix(h: seq<Event>, n: nat, m: nat)
    requires m <= n <= |h|
    ensures FenceReport(h[..n], m) == FenceReport(h, m)
    decreases m
  {
    if m > 0 {
      FenceReportPrefix(h, n, m - 1);
      if IsSample(h, m - 1) { FenceReportAtPrefix(h, n, m - 1, m - 1); }
    }
  }

  lemma {:induction false} FencesAddedAt(h: seq<Event>, n: nat)
    requires IsSample(h, n)
    ensures FenceOnly(Added(h[..n], h[n])) == FenceReportAt(h, n, n)
  {
    SampleFences(h[..n], h[n].sample);
    FencesAreOpenWindows(h[..n]);
    OpenFencesPrefix(h, n, n);
    BrokenAtSample(h, n, n);
  }

  /** For every applied leader kill or pause, exactly the first sample past its grace
      period is held against the highest timestamp that arrived before the window, and a
      fence violation is reported just when that sample does not exceed it. */
  lemma {:induction false} FenceReportIsExact(h: seq<Event>)
    ensures FenceOnly(Violations(h)) == FenceReport(h, |h|)
  {
    if h != [] {
      var n := |h| - 1;
      FenceReportIsExact(h[..n]);
      FenceReportPrefix(h, n, n);
      FenceOnlyAppend(Violations(h[..n]), Added(h[..n], h[n]));
      if h[n].Issued? {
        FencesAddedAt(h, n);
      } else {
        FenceOnlyNone(Added(h[..n], h[n]));
      }
    }
  }

  /** Sample `i` lies above every sample that arrived before window `j`, and above zero. */
  ghost predicate RisesPast(h: seq<Event>, i: nat, j: nat)
    requires IsSample(h, i) && j <= |h|
  {
    h[i].sample.ts > 0 && forall k: nat :: k < j && IsSample(h, k) ==> h[k].sample.ts < h[i].sample.ts
  }

  lemma {:induction false} RisesPastMax(h: seq<Event>, i: nat, j: nat)
    requires IsSample(h, i) && j <= |h|
    ensures RisesPast(h, i, j) <==> h[i].sample.ts > MaxTs(h[..j])
  {
    MaxTsIsMax(h[..j]);
    assert forall k: nat :: k < j ==> (IsSample(h[..j], k) <==> IsSample(h, k)) && h[..j][k] == h[k];
  }

  lemma {:induction false} SampleSilentIff(h: seq<Event>, i: nat, m: nat)
    requires m <= i && IsSample(h, i)
    ensures FenceReportAt(h, i, m) == [] <==> forall j: nat :: j < m && Judges(h, i, j) ==> RisesPast(h, i, j)
  {
    if m > 0 {
      SampleSilentIff(h, i, m - 1);
      RisesPastMax(h, i, m - 1);
    }
  }

  lemma {:induction false} PrefixSilentIff(h: seq<Event>, n: nat)
    requires n <= |h|
    ensures FenceReport(h, n) == [] <==> forall i: nat :: i < n && IsSample(h, i) ==> FenceReportAt(h, i, i) == []
  {
    if n > 0 { PrefixSilentIff(h, n - 1); }
  }

  /** Silence about fences, event by event: no fence violation is reported exactly when every
      sample that judges a window lies above everything that arrived before the window. */
  lemma {:induction false} FenceSilentIff(h: seq<Event>)
    ensures FenceOnly(Violations(h)) == [] <==>
              forall i: nat, j: nat :: IsSample(h, i) && j < i && Judges(h, i, j) ==> RisesPast(h, i, j)
  {
    FenceReportIsExact(h);
    PrefixSilentIff(h, |h|);
    forall i: nat | IsSample(h, i)
      ensures FenceReportAt(h, i, i) == [] <==> forall j: nat :: j < i && Judges(h, i, j) ==> RisesPast(h, i, j)
    {
      SampleSilentIff(h, i, i);
    }
  }

  /** A window is judged at most once. */
  lemma {:induction false} JudgeIsUnique(h: seq<Event>, j: nat, i: nat, k: nat)
    requires Judges(h, i, j) && Judges(h, k, j)
    ensures i == k
  {
  }
}
