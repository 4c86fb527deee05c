/** The supervisor's report event by event: which event adds which violation, said of the
    samples, windows and incidents of the history by their place in it. */
module SupervisionReports {
  import opened Wrappers
  import opened Supervision

  // ------------------------------------------------------------------
  // What an event adds, found in the final report
  // ------------------------------------------------------------------

  /** The report only grows. */
  lemma {:induction false} ReportGrows(h: seq<Event>, n: nat)
    requires n <= |h|
    ensures Violations(h[..n]) <= Violations(h)
  {
    if n == |h| {
      assert h[..n] == h;
    } else {
      var before := h[..|h| - 1];
      ReportGrows(before, n);
      assert before[..n] == h[..n];
      LastAdds(h);
    }
  }

  /** What event `i` added is a stretch of the final report. */
  lemma {:induction false} AddedInPlace(h: seq<Event>, i: nat)
    requires i < |h|
    ensures Violations(h[..i + 1]) == Violations(h[..i]) + Added(h[..i], h[i])
    ensures Violations(h[..i + 1]) <= Violations(h)
  {
    var upTo := h[..i + 1];
    assert upTo[..|upTo| - 1] == h[..i];
    LastAdds(upTo);
    ReportGrows(h, i + 1);
  }

  /** The report on `h` holds `v` in the stretch that event `i` added. */
  ghost predicate Adds(h: seq<Event>, i: nat, v: Violation)
    requires i < |h|
  {
    exists p :: |Violations(h[..i])| <= p < |Violations(h[..i + 1])| && p < |Violations(h)| && Violations(h)[p] == v
  }

  lemma {:induction false} StretchHas(before: seq<Violation>, added: seq<Violation>, all: seq<Violation>, v: Violation)
    requires before + added <= all
    ensures v in added <==> exists p :: |before| <= p < |before + added| && p < |all| && all[p] == v
  {
    if v in added {
      var q :| 0 <= q < |added| && added[q] == v;
      assert all[|before| + q] == (before + added)[|before| + q] == added[q];
    }
    if p :| |before| <= p < |before + added| && p < |all| && all[p] == v {
      assert all[p] == (before + added)[p] == added[p - |before|];
    }
  }

  lemma {:induction false} AddsIff(h: seq<Event>, i: nat, v: Violation)
    requires i < |h|
    ensures Adds(h, i, v) <==> v in Added(h[..i], h[i])
  {
    AddedInPlace(h, i);
    StretchHas(Violations(h[..i]), Added(h[..i], h[i]), Violations(h), v);
  }

  /** Every violation in the report was added by some event. */
  lemma {:induction false} SomeEventAdded(h: seq<Event>, v: Violation, n: nat) returns (i: nat)
    requires n <= |h| && v in Violations(h[..n])
    ensures i < n && Adds(h, i, v)
  {
    var upTo := h[..n];
    LastAdds(upTo);
    assert upTo[..n - 1] == h[..n - 1];
    if v in Violations(h[..n - 1]) {
      i := SomeEventAdded(h, v, n - 1);
    } else {
      i := n - 1;
      AddsIff(h, i, v);
    }
  }

  /** A sample's violations are those of the four checks. */
  lemma {:induction false} SampleAdds(h: seq<Event>, x: Sample, v: Violation)
    ensures v in AddedBySample(h, x) <==>
              match v
              case Monotonicity(_, _, _) => v in Repeats(h, x)
              case FenceFreshness(_, _, _) => v in Broken(Fences(h), x)
              case CrossClientRealtime(_, _, _) => v in Inversions(Highest(h), Repeats(h, x) != [] || Covered(Fences(h), x), x)
              case BatchOrdering(_, _, _) => v in Disorder(h, x)
              case LivenessLost(_) => false
  {
    BrokenAreFences(Fences(h), x);
  }

  // ------------------------------------------------------------------
  // Monotonicity
  // ------------------------------------------------------------------

  /** Sample `k` arrived before event `i`, for the same client as sample `i`. */
  predicate Earlier(h: seq<Event>, k: nat, i: nat)
    requires IsSample(h, i)
  {
    k < i && IsSample(h, k) && h[k].sample.client == h[i].sample.client
  }

  /** The highest timestamp the client of sample `i` had before it, zero if it had none. */
  ghost predicate EarlierMax(h: seq<Event>, i: nat, m: nat)
    requires IsSample(h, i)
  {
    && (forall k: nat :: Earlier(h, k, i) ==> h[k].sample.ts <= m)
    && (m == 0 || exists k: nat :: Earlier(h, k, i) && h[k].sample.ts == m)
  }

  lemma {:induction false} ClientMaxAt(h: seq<Event>, i: nat, m: nat)
    requires IsSample(h, i)
    ensures m == ClientMax(h[..i], h[i].sample.client) <==> EarlierMax(h, i, m)
  {
    var c := h[i].sample.client;
    ClientMaxIsMax(h[..i], c);
    assert forall k: nat :: (IsSample(h[..i], k) && h[..i][k].sample.client == c) <==> Earlier(h, k, i);
  }

  lemma {:induction false} SeenAt(h: seq<Event>, i: nat)
    requires IsSample(h, i)
    ensures h[i].sample.ts in Seen(h[..i]) <==> exists k: nat :: k < i && IsSample(h, k) && h[k].sample.ts == h[i].sample.ts
  {
    SeenIsSeen(h[..i], h[i].sample.ts);
    assert forall k: nat :: IsSample(h[..i], k) <==> k < i && IsSample(h, k);
  }

  /** Exactly which monotonicity violations an event adds: one naming its client's highest
      earlier timestamp if the sample is not above that, one naming its own if it repeats one. */
  lemma {:induction false} MonotonicityAddedIff(h: seq<Event>, i: nat, v: Violation)
    requires i < |h| && v.Monotonicity?
    ensures Adds(h, i, v) <==>
              && IsSample(h, i) && v.sample == h[i].sample && v.got == h[i].sample.ts
              && (|| (EarlierMax(h, i, v.prev) && v.got <= v.prev)
                  || (v.prev == v.got && exists k: nat :: k < i && IsSample(h, k) && h[k].sample.ts == h[i].sample.ts))
  {
    AddsIff(h, i, v);
    if IsSample(h, i) {
      SampleAdds(h[..i], h[i].sample, v);
      ClientMaxAt(h, i, v.prev);
      SeenAt(h, i);
    }
  }

  // ------------------------------------------------------------------
  // Real-time order across clients
  // ------------------------------------------------------------------

  /** Sample `m` was the first to reach the highest timestamp that arrived before event `n`. */
  ghost predicate FirstHighest(h: seq<Event>, n: nat, m: nat) {
    && m < n && IsSample(h, m)
    && (forall k: nat :: k < n && IsSample(h, k) ==> h[k].sample.ts <= h[m].sample.ts)
    && (forall k: nat :: k < m && IsSample(h, k) ==> h[k].sample.ts < h[m].sample.ts)
  }

  lemma {:induction false} HighestAt(h: seq<Event>, n: nat) returns (m: nat)
    requires n <= |h|
    ensures Highest(h[..n]).None? <==> forall k: nat :: k < n ==> !IsSample(h, k)
    ensures Highest(h[..n]).Some? ==>
              FirstHighest(h, n, m) && Highest(h[..n]).value == Completed(h[m].sample.ts, h[m].sample.recvTime)
  {
    m := 0;
    if n > 0 {
      m := HighestAt(h, n - 1);
      assert h[..n][..n - 1] == h[..n - 1];
      var p := Highest(h[..n - 1]);
      if h[n - 1].Issued? && !(p.Some? && h[n - 1].sample.ts <= p.value.ts) {
        m := n - 1;
        assert IsSample(h, n - 1);
      }
    }
  }

  /** An unjudged leadership change that began by the time sample `i` arrived. */
  ghost predicate Shielded(h: seq<Event>, i: nat)
    requires IsSample(h, i)
  {
    exists j: nat :: OpenUntil(h, j, i) && h[i].sample.recvTime >= h[j].window.startedAt
  }

  lemma {:induction false} OpenFencesCover(h: seq<Event>, n: nat, m: nat, x: Sample)
    requires m <= |h|
    ensures Covered(OpenFences(h, n, m), x) <==> exists j: nat :: j < m && OpenUntil(h, j, n) && x.recvTime >= h[j].window.startedAt
  {
    if m > 0 {
      OpenFencesCover(h, n, m - 1, x);
      var rest := OpenFences(h, n, m - 1);
      if OpenUntil(h, m - 1, n) {
        CoveredAppend(rest, Fence(h[m - 1].window, MaxTs(h[..m - 1])), x);
      }
    }
  }

  lemma {:induction false} CoveredAppend(fences: seq<Fence>, f: Fence, x: Sample)
    ensures Covered(fences + [f], x) <==> Covered(fences, x) || x.recvTime >= f.window.startedAt
  {
    var longer := fences + [f];
    if Covered(fences, x) {
      var i :| 0 <= i < |fences| && x.recvTime >= fences[i].window.startedAt;
      assert longer[i] == fences[i];
    }
    if x.recvTime >= f.window.startedAt { assert longer[|fences|] == f; }
  }

  lemma {:induction false} ShieldedIff(h: seq<Event>, i: nat)
    requires IsSample(h, i)
    ensures Covered(Fences(h[..i]), h[i].sample) <==> Shielded(h, i)
  {
    FencesAreOpenWindows(h[..i]);
    OpenFencesPrefix(h, i, i);
    OpenFencesCover(h, i, i, h[i].sample);
  }

  /** Sample `i` was asked for, and delivered, once sample `m` had been, and is not above it. */
  predicate NotAbove(h: seq<Event>, m: nat, i: nat)
    requires IsSample(h, m) && IsSample(h, i)
  {
    var prior, x := h[m].sample, h[i].sample;
    x.issuedAt >= prior.recvTime && x.recvTime >= prior.recvTime && x.ts <= prior.ts
  }

  /** Exactly when an event adds a real-time violation, and which: when it is a sample that no
      monotonicity check flags and no unjudged leadership change covers, held against the
      first sample to reach the highest earlier timestamp. */
  lemma {:induction false} RealtimeAddedIff(h: seq<Event>, i: nat, v: Violation)
    requires i < |h| && v.CrossClientRealtime?
    ensures Adds(h, i, v) <==>
              && IsSample(h, i) && CleanAt(h, i) && !Shielded(h, i)
              && exists m: nat :: FirstHighest(h, i, m) && NotAbove(h, m, i)
                                  && v == CrossClientRealtime(h[m].sample.ts, h[i].sample.ts, h[i].sample)
  {
    AddsIff(h, i, v);
    if IsSample(h, i) {
      SampleAdds(h[..i], h[i].sample, v);
      CleanAtIff(h, i);
      ShieldedIff(h, i);
      var m := HighestAt(h, i);
      forall k: nat | FirstHighest(h, i, k) ensures Highest(h[..i]).Some? && k == m { FirstHighestIsUnique(h, i, k, m); }
    }
  }

  /** Sample `k` had been delivered before sample `i` was asked for, to someone else, and
      yet lies above it: no strictly increasing source could have produced both. */
  predicate Inverted(h: seq<Event>, k: nat, i: nat) {
    && IsSample(h, k) && IsSample(h, i) && k < i
    && h[k].sample.client != h[i].sample.client
    && h[k].sample.recvTime <= h[i].sample.issuedAt
    && h[k].sample.ts > h[i].sample.ts
  }

  /** Every real-time violation in the report is a real inversion. */
  lemma {:induction false} RealtimeReportsAreSound(h: seq<Event>, v: Violation) returns (k: nat, i: nat)
    requires v in Violations(h) && v.CrossClientRealtime?
    ensures Inverted(h, k, i) && v == CrossClientRealtime(h[k].sample.ts, h[i].sample.ts, h[i].sample)
  {
    assert h[..|h|] == h;
    i := SomeEventAdded(h, v, |h|);
    RealtimeAddedIff(h, i, v);
    k :| FirstHighest(h, i, k) && NotAbove(h, k, i) && v == CrossClientRealtime(h[k].sample.ts, h[i].sample.ts, h[i].sample);
  }

  /** The check looks at one earlier sample only.  A real inversion is reported exactly when
      the sample is beyond reproach otherwise, no leadership change still to be judged covers
      it, and it was asked for, and delivered, after the first sample to reach the highest
      earlier timestamp, not just some higher one, had been delivered. */
  lemma {:induction false} RealtimeReportedIff(h: seq<Event>, k: nat, i: nat) returns (m: nat)
    requires Inverted(h, k, i)
    ensures FirstHighest(h, i, m)
    ensures Adds(h, i, CrossClientRealtime(h[m].sample.ts, h[i].sample.ts, h[i].sample)) <==>
              && CleanAt(h, i) && !Shielded(h, i)
              && h[i].sample.issuedAt >= h[m].sample.recvTime && h[i].sample.recvTime >= h[m].sample.recvTime
  {
    m := SomeFirstHighest(h, i, k);
    HeldAgainst(h, m, i);
  }

  lemma {:induction false} SomeFirstHighest(h: seq<Event>, n: nat, k: nat) returns (m: nat)
    requires k < n <= |h| && IsSample(h, k)
    ensures FirstHighest(h, n, m)
  {
    m := HighestAt(h, n);
  }

  /** The same, with the sample held against known. */
  lemma {:induction false} HeldAgainst(h: seq<Event>, m: nat, i: nat)
    requires IsSample(h, i) && FirstHighest(h, i, m)
    ensures Adds(h, i, CrossClientRealtime(h[m].sample.ts, h[i].sample.ts, h[i].sample)) <==>
              CleanAt(h, i) && !Shielded(h, i) && NotAbove(h, m, i)
  {
    var v := CrossClientRealtime(h[m].sample.ts, h[i].sample.ts, h[i].sample);
    RealtimeAddedIff(h, i, v);
    if Adds(h, i, v) {
      var k: nat :| FirstHighest(h, i, k) && NotAbove(h, k, i);
      FirstHighestIsUnique(h, i, k, m);
    }
  }

  /** A sample adds no other real-time violation than that one. */
  lemma {:induction false} OneRealtimeAtMost(h: seq<Event>, i: nat, m: nat, v: Violation)
    requires i < |h| && v.CrossClientRealtime? && Adds(h, i, v) && FirstHighest(h, i, m)
    ensures IsSample(h, i) && v == CrossClientRealtime(h[m].sample.ts, h[i].sample.ts, h[i].sample)
  {
    RealtimeAddedIff(h, i, v);
    var k: nat :| FirstHighest(h, i, k) && v == CrossClientRealtime(h[k].sample.ts, h[i].sample.ts, h[i].sample);
    FirstHighestIsUnique(h, i, k, m);
  }

  lemma {:induction false} FirstHighestIsUnique(h: seq<Event>, n: nat, k: nat, m: nat)
    requires FirstHighest(h, n, k) && FirstHighest(h, n, m)
    ensures k == m
  {
  }

  /** Three samples of three clients; the first had been delivered when the third was asked for. */
  const MISSED: seq<Event> := [Issued(Sample(1, 0, 10, 0, 100, true)), Issued(Sample(2, 0, 20, 0, 200, true)),
                               Issued(Sample(3, 0, 5, 150, 250, true))]

  /** So a real inversion can go unreported: here the second sample, still higher, was
      delivered only after the third was asked for. */
  lemma {:induction false} InversionCanBeMissed(v: Violation)
    requires v.CrossClientRealtime?
    ensures Inverted(MISSED, 0, 2) && !Adds(MISSED, 2, v)
  {
    var m := RealtimeReportedIff(MISSED, 0, 2);
    assert IsSample(MISSED, 1);
    if Adds(MISSED, 2, v) { OneRealtimeAtMost(MISSED, 2, m, v); }
  }

  // ------------------------------------------------------------------
  // Batches
  // ------------------------------------------------------------------

  /** Sample `i` belongs to batch `b` of client `c`. */
  predicate InBatch(h: seq<Event>, c: nat, b: nat, i: nat) {
    IsSample(h, i) && h[i].sample.client == c && h[i].sample.batch == b
  }

  /** Sample `i` belongs to the part of the batch that no sample before event `n` has closed. */
  ghost predicate StillOpen(h: seq<Event>, c: nat, b: nat, i: nat, n: nat) {
    i < n && InBatch(h, c, b, i) && forall k: nat :: i <= k < n && InBatch(h, c, b, k) ==> !h[k].sample.isLast
  }

  /** The timestamps of those samples below `m`, in order of arrival. */
  ghost function OpenPart(h: seq<Event>, c: nat, b: nat, n: nat, m: nat): seq<nat>
    requires m <= |h|
  {
    if m == 0 then []
    else OpenPart(h, c, b, n, m - 1) + (if StillOpen(h, c, b, m - 1, n) then [h[m - 1].sample.ts] else [])
  }

  lemma {:induction false} OthersKeepPart(h: seq<Event>, c: nat, b: nat, n: nat, m: nat)
    requires m <= n < |h| && (InBatch(h, c, b, n) ==> !h[n].sample.isLast)
    ensures OpenPart(h, c, b, n + 1, m) == OpenPart(h, c, b, n, m)
    decreases m
  {
    if m > 0 {
      OthersKeepPart(h, c, b, n, m - 1);
      assert StillOpen(h, c, b, m - 1, n + 1) <==> StillOpen(h, c, b, m - 1, n);
    }
  }

  lemma {:induction false} ClosingEmptiesPart(h: seq<Event>, c: nat, b: nat, n: nat, m: nat)
    requires m <= n + 1 <= |h| && InBatch(h, c, b, n) && h[n].sample.isLast
    ensures OpenPart(h, c, b, n + 1, m) == []
    decreases m
  {
    if m > 0 { ClosingEmptiesPart(h, c, b, n, m - 1); }
  }

  lemma {:induction false} OpenValuesAre(h: seq<Event>, c: nat, b: nat, n: nat)
    requires n <= |h|
    ensures OpenValues(h[..n], c, b) == OpenPart(h, c, b, n, n)
  {
    if n > 0 {
      OpenValuesAre(h, c, b, n - 1);
      assert h[..n][..n - 1] == h[..n - 1];
      if InBatch(h, c, b, n - 1) && h[n - 1].sample.isLast {
        ClosingEmptiesPart(h, c, b, n - 1, n);
      } else {
        OthersKeepPart(h, c, b, n - 1, n - 1);
      }
    }
  }

  /** Exactly when an event adds a batch violation, and which: when it is a closing sample, and
      the batch's timestamps since it was last closed, in order of arrival and this one last,
      do not go up by one from each to the next. */
  lemma {:induction false} BatchAddedIff(h: seq<Event>, j: nat, v: Violation)
    requires j < |h| && v.BatchOrdering?
    ensures Adds(h, j, v) <==>
              && InBatch(h, v.client, v.batch, j) && h[j].sample.isLast
              && v.values == OpenPart(h, v.client, v.batch, j, j) + [h[j].sample.ts]
              && exists p :: 0 <= p < |v.values| - 1 && v.values[p + 1] != v.values[p] + 1
  {
    AddsIff(h, j, v);
    if IsSample(h, j) {
      SampleAdds(h[..j], h[j].sample, v);
      OpenValuesAre(h, v.client, v.batch, j);
    }
  }

  // ------------------------------------------------------------------
  // Liveness
  // ------------------------------------------------------------------

  /** Event `j` is a fault that was applied. */
  predicate AppliedFault(h: seq<Event>, j: nat) { j < |h| && h[j].Chaos? && h[j].applied }

  /** Instant `t` lies in the span of the fault, grace included, and in that of the incident:
      the client's attempts, or the moment a server went away. */
  predicate Shares(w: Window, incident: Incident, t: int) {
    && w.startedAt <= t < w.endedAt + w.grace
    && match incident
       case DeadlineExceeded(startedAt, at) => startedAt <= t < at
       case UnexpectedServerExit(at) => t == at
  }

  /** Both spans hold an instant at all. */
  predicate ProperSpans(w: Window, incident: Incident) {
    w.startedAt < w.endedAt + w.grace && (incident.DeadlineExceeded? ==> incident.startedAt < incident.at)
  }

  /** A fault explains an incident if they share an instant.  The converse holds unless one of
      the spans is empty. */
  lemma {:induction false} ExplainsIffShared(w: Window, incident: Incident)
    ensures (exists t :: Shares(w, incident, t)) ==> Explains(w, incident)
    ensures Explains(w, incident) && !(exists t :: Shares(w, incident, t)) <==> Explains(w, incident) && !ProperSpans(w, incident)
  {
    var t := if incident.DeadlineExceeded? && incident.startedAt > w.startedAt then incident.startedAt
             else if incident.DeadlineExceeded? then w.startedAt else incident.at;
    if Explains(w, incident) && ProperSpans(w, incident) { assert Shares(w, incident, t); }
  }

  /** A fault of no length inside the attempts explains their failure although they share no
      instant. */
  lemma {:induction false} EmptyFaultExplains(w: Window, startedAt: int, at: int)
    requires w.grace == 0 && startedAt < w.startedAt == w.endedAt < at
    ensures Explains(w, DeadlineExceeded(startedAt, at)) && !(exists t :: Shares(w, DeadlineExceeded(startedAt, at), t))
  {
  }

  lemma {:induction false} AppliedWindowsAre(h: seq<Event>, n: nat, w: Window)
    requires n <= |h|
    ensures w in AppliedWindows(h[..n]) <==> exists j: nat :: j < n && AppliedFault(h, j) && h[j].window == w
  {
    if n > 0 {
      AppliedWindowsAre(h, n - 1, w);
      assert h[..n][..n - 1] == h[..n - 1];
      if AppliedFault(h, n - 1) { assert AppliedWindows(h[..n]) == AppliedWindows(h[..n - 1]) + [h[n - 1].window]; }
    }
  }

  lemma {:induction false} AttributableIff(h: seq<Event>, i: nat, incident: Incident)
    requires i <= |h|
    ensures Attributable(AppliedWindows(h[..i]), incident) <==>
              exists j: nat :: j < i && AppliedFault(h, j) && Explains(h[j].window, incident)
  {
    var ws := AppliedWindows(h[..i]);
    if Attributable(ws, incident) {
      var k :| 0 <= k < |ws| && Explains(ws[k], incident);
      AppliedWindowsAre(h, i, ws[k]);
    }
    if j: nat :| j < i && AppliedFault(h, j) && Explains(h[j].window, incident) {
      AppliedWindowsAre(h, i, h[j].window);
      var k :| 0 <= k < |ws| && ws[k] == h[j].window;
    }
  }

  /** Some fault applied before event `i` shares an instant with the incident. */
  ghost predicate Explained(h: seq<Event>, i: nat, incident: Incident) {
    exists j: nat, t :: j < i && AppliedFault(h, j) && Shares(h[j].window, incident, t)
  }

  /** Exactly when an event adds a liveness violation: when it is that incident and no fault
      applied before it, however long ago, shares an instant with it. */
  lemma {:induction false} LivenessAddedIff(h: seq<Event>, i: nat, v: Violation)
    requires i < |h| && v.LivenessLost?
    requires forall j: nat :: j < i && AppliedFault(h, j) ==> ProperSpans(h[j].window, v.incident)
    ensures Adds(h, i, v) <==> h[i] == Liveness(v.incident) && !Explained(h, i, v.incident)
  {
    AddsIff(h, i, v);
    if h[i].Issued? { SampleAdds(h[..i], h[i].sample, v); }
    AttributableIff(h, i, v.incident);
    forall j: nat | j < i && AppliedFault(h, j)
      ensures Explains(h[j].window, v.incident) <==> exists t :: Shares(h[j].window, v.incident, t)
    {
      ExplainsIffShared(h[j].window, v.incident);
    }
  }
}
