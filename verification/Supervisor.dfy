/** The stress supervisor: a single consumer that keeps a few maxima, sets and open lists
    and reports violations as events arrive.  Each handler makes one step of `Next`, and a
    whole run is shown to report what module Supervision defines over the event history. */
module Supervisors {
  import opened Wrappers
  import opened Supervision

  /** What the supervisor remembers.  Of the open windows only the unjudged ones matter. */
  datatype Memory = Memory(
    highWater: nat, perClient: map<nat, nat>, seen: set<nat>, completed: Option<Completed>,
    openBatches: map<(nat, nat), seq<nat>>, fences: seq<Fence>, chaosHistory: seq<Window>, violations: seq<Violation>)

  const BLANK := Memory(0, map[], {}, None, map[], [], [], [])

  function PrevOf(perClient: map<nat, nat>, c: nat): nat { if c in perClient then perClient[c] else 0 }

  function ValuesOf(open: map<(nat, nat), seq<nat>>, key: (nat, nat)): seq<nat> { if key in open then open[key] else [] }

  function RepeatsNow(perClient: map<nat, nat>, seen: set<nat>, x: Sample): seq<Violation> {
    (if x.ts <= PrevOf(perClient, x.client) then [Monotonicity(PrevOf(perClient, x.client), x.ts, x)] else [])
    + (if x.ts in seen then [Monotonicity(x.ts, x.ts, x)] else [])
  }

  function DisorderNow(open: map<(nat, nat), seq<nat>>, x: Sample): seq<Violation> {
    var values := ValuesOf(open, (x.client, x.batch)) + [x.ts];
    if x.isLast && !Contiguous(values) then [BatchOrdering(x.client, x.batch, values)] else []
  }

  function ClientsAfter(perClient: map<nat, nat>, x: Sample): map<nat, nat> {
    if x.ts <= PrevOf(perClient, x.client) then perClient else perClient[x.client := x.ts]
  }

  function CompletedAfter(completed: Option<Completed>, x: Sample): Option<Completed> {
    if completed.Some? && x.ts <= completed.value.ts then completed else Some(Completed(x.ts, x.recvTime))
  }

  function BatchesAfter(open: map<(nat, nat), seq<nat>>, x: Sample): map<(nat, nat), seq<nat>> {
    var key := (x.client, x.batch);
    if x.isLast then open - {key} else open[key := ValuesOf(open, key) + [x.ts]]
  }

  function AfterSample(m: Memory, x: Sample): Memory {
    var repeats := RepeatsNow(m.perClient, m.seen, x);
    Memory(if x.ts > m.highWater then x.ts else m.highWater,
           ClientsAfter(m.perClient, x), m.seen + {x.ts}, CompletedAfter(m.completed, x), BatchesAfter(m.openBatches, x),
           Undue(m.fences, x), m.chaosHistory,
           m.violations + repeats + Broken(m.fences, x)
           + Inversions(m.completed, repeats != [] || Covered(m.fences, x), x) + DisorderNow(m.openBatches, x))
  }

  function AfterChaos(m: Memory, w: Window, applied: bool): Memory {
    if !applied then m
    else m.(chaosHistory := m.chaosHistory + [w],
            fences := if ChangesLeader(w) then m.fences + [Fence(w, m.highWater)] else m.fences)
  }

  function AfterLiveness(m: Memory, incident: Incident): Memory {
    if Attributable(m.chaosHistory, incident) then m else m.(violations := m.violations + [LivenessLost(incident)])
  }

  function Next(m: Memory, e: Event): Memory {
    match e
    case Issued(x) => AfterSample(m, x)
    case Chaos(w, applied) => AfterChaos(m, w, applied)
    case Liveness(incident) => AfterLiveness(m, incident)
    case End => m
  }

  /** What is remembered after the first `n` events. */
  function Replay(h: seq<Event>, n: nat): Memory
    requires n <= |h|
  {
    if n == 0 then BLANK else Next(Replay(h, n - 1), h[n - 1])
  }

  // ------------------------------------------------------------------
  // The memory summarises the history
  // ------------------------------------------------------------------

  ghost predicate ClientsOk(perClient: map<nat, nat>, h: seq<Event>) {
    forall c: nat :: PrevOf(perClient, c) == ClientMax(h, c)
  }

  ghost predicate BatchesOk(open: map<(nat, nat), seq<nat>>, h: seq<Event>) {
    forall c: nat, b: nat :: ValuesOf(open, (c, b)) == OpenValues(h, c, b)
  }

  ghost predicate Summarises(m: Memory, h: seq<Event>) {
    && m.highWater == MaxTs(h) && m.seen == Seen(h) && m.completed == Highest(h)
    && m.fences == Fences(h) && m.chaosHistory == AppliedWindows(h) && m.violations == Violations(h)
    && ClientsOk(m.perClient, h) && BatchesOk(m.openBatches, h)
  }

  /** `t` is `h` with `e` at its end. */
  predicate Extends(t: seq<Event>, h: seq<Event>, e: Event) {
    t != [] && t[..|t| - 1] == h && t[|t| - 1] == e
  }

  lemma {:induction false} Regroup(v: seq<Violation>, a: seq<Violation>, b: seq<Violation>, c: seq<Violation>, d: seq<Violation>)
    ensures v + (a + b + c + d) == v + a + b + c + d
  {
  }

  lemma {:induction false} SampleReport(m: Memory, h: seq<Event>, x: Sample, t: seq<Event>)
    requires Summarises(m, h) && Extends(t, h, Issued(x))
    ensures AfterSample(m, x).violations == Violations(t)
  {
    assert PrevOf(m.perClient, x.client) == ClientMax(h, x.client);
    assert ValuesOf(m.openBatches, (x.client, x.batch)) == OpenValues(h, x.client, x.batch);
    Regroup(Violations(h), Repeats(h, x), Broken(Fences(h), x),
            Inversions(Highest(h), Repeats(h, x) != [] || Covered(Fences(h), x), x), Disorder(h, x));
  }

  lemma {:induction false} SampleClients(perClient: map<nat, nat>, h: seq<Event>, x: Sample, t: seq<Event>)
    requires ClientsOk(perClient, h) && Extends(t, h, Issued(x))
    ensures ClientsOk(ClientsAfter(perClient, x), t)
  {
    forall c: nat ensures PrevOf(ClientsAfter(perClient, x), c) == ClientMax(t, c) {
      assert PrevOf(perClient, c) == ClientMax(h, c);
    }
  }

  lemma {:induction false} SampleBatches(open: map<(nat, nat), seq<nat>>, h: seq<Event>, x: Sample, t: seq<Event>)
    requires BatchesOk(open, h) && Extends(t, h, Issued(x))
    ensures BatchesOk(BatchesAfter(open, x), t)
  {
    forall c: nat, b: nat ensures ValuesOf(BatchesAfter(open, x), (c, b)) == OpenValues(t, c, b) {
      assert ValuesOf(open, (c, b)) == OpenValues(h, c, b);
    }
  }

  lemma {:induction false} SampleMax(h: seq<Event>, x: Sample, t: seq<Event>)
    requires Extends(t, h, Issued(x))
    ensures MaxTs(t) == if x.ts > MaxTs(h) then x.ts else MaxTs(h)
  {
  }

  lemma {:induction false} SampleSeen(h: seq<Event>, x: Sample, t: seq<Event>)
    requires Extends(t, h, Issued(x))
    ensures Seen(t) == Seen(h) + {x.ts}
  {
  }

  lemma {:induction false} SampleHighest(h: seq<Event>, x: Sample, t: seq<Event>)
    requires Extends(t, h, Issued(x))
    ensures Highest(t) == CompletedAfter(Highest(h), x)
  {
  }

  lemma {:induction false} SampleFencesLeft(h: seq<Event>, x: Sample, t: seq<Event>)
    requires Extends(t, h, Issued(x))
    ensures Fences(t) == Undue(Fences(h), x) && AppliedWindows(t) == AppliedWindows(h)
  {
  }

  lemma {:induction false} SampleSummarises(m: Memory, h: seq<Event>, x: Sample, t: seq<Event>)
    requires Summarises(m, h) && Extends(t, h, Issued(x))
    ensures Summarises(AfterSample(m, x), t)
  {
    SampleMax(h, x, t);
    SampleSeen(h, x, t);
    SampleHighest(h, x, t);
    SampleFencesLeft(h, x, t);
    SampleClients(m.perClient, h, x, t);
    SampleBatches(m.openBatches, h, x, t);
    SampleReport(m, h, x, t);
  }

  /** Events that are not samples leave what is kept about samples alone. */
  lemma {:induction false} OtherKeepsSamples(h: seq<Event>, e: Event, t: seq<Event>)
    requires Extends(t, h, e) && !e.Issued?
    ensures MaxTs(t) == MaxTs(h) && Seen(t) == Seen(h) && Highest(t) == Highest(h)
  {
  }

  lemma {:induction false} OtherKeepsClients(perClient: map<nat, nat>, h: seq<Event>, e: Event, t: seq<Event>)
    requires Extends(t, h, e) && !e.Issued? && ClientsOk(perClient, h)
    ensures ClientsOk(perClient, t)
  {
    forall c: nat ensures PrevOf(perClient, c) == ClientMax(t, c) {
      assert PrevOf(perClient, c) == ClientMax(h, c);
    }
  }

  lemma {:induction false} OtherKeepsBatches(open: map<(nat, nat), seq<nat>>, h: seq<Event>, e: Event, t: seq<Event>)
    requires Extends(t, h, e) && !e.Issued? && BatchesOk(open, h)
    ensures BatchesOk(open, t)
  {
    forall c: nat, b: nat ensures ValuesOf(open, (c, b)) == OpenValues(t, c, b) {
      assert ValuesOf(open, (c, b)) == OpenValues(h, c, b);
    }
  }

  lemma {:induction false} OtherWindows(m: Memory, h: seq<Event>, e: Event, t: seq<Event>)
    requires Extends(t, h, e) && !e.Issued?
    requires m.highWater == MaxTs(h) && m.fences == Fences(h) && m.chaosHistory == AppliedWindows(h)
    ensures Next(m, e).fences == Fences(t) && Next(m, e).chaosHistory == AppliedWindows(t)
  {
  }

  lemma {:induction false} OtherReport(m: Memory, h: seq<Event>, e: Event, t: seq<Event>)
    requires Extends(t, h, e) && !e.Issued?
    requires m.chaosHistory == AppliedWindows(h) && m.violations == Violations(h)
    ensures Next(m, e).violations == Violations(t)
  {
  }

  lemma {:induction false} OtherSummarises(m: Memory, h: seq<Event>, e: Event, t: seq<Event>)
    requires Summarises(m, h) && Extends(t, h, e) && !e.Issued?
    ensures Summarises(Next(m, e), t)
  {
    OtherKeepsSamples(h, e, t);
    OtherKeepsClients(m.perClient, h, e, t);
    OtherKeepsBatches(m.openBatches, h, e, t);
    OtherWindows(m, h, e, t);
    OtherReport(m, h, e, t);
  }

  /** Remembering this little is enough: after any history the maxima, sets and lists are
      those of the whole history, and so is the report. */
  lemma {:induction false} ReplaySummarises(h: seq<Event>, n: nat)
    requires n <= |h|
    ensures Summarises(Replay(h, n), h[..n])
  {
    if n > 0 {
      ReplaySummarises(h, n - 1);
      assert h[..n][..n - 1] == h[..n - 1];
      if h[n - 1].Issued? {
        SampleSummarises(Replay(h, n - 1), h[..n - 1], h[n - 1].sample, h[..n]);
      } else {
        OtherSummarises(Replay(h, n - 1), h[..n - 1], h[n - 1], h[..n]);
      }
    }
  }

  // ------------------------------------------------------------------
  // Open windows
  // ------------------------------------------------------------------

  datatype OpenWindow = OpenWindow(fence: Fence, checked: bool)

  function Unchecked(ws: seq<OpenWindow>): seq<Fence> {
    if ws == [] then []
    else
      var rest, w := Unchecked(ws[..|ws| - 1]), ws[|ws| - 1];
      if w.checked then rest else rest + [w.fence]
  }

  lemma {:induction false} UncheckedAppend(ws: seq<OpenWindow>, w: OpenWindow)
    ensures Unchecked(ws + [w]) == if w.checked then Unchecked(ws) else Unchecked(ws) + [w.fence]
  {
    assert (ws + [w])[..|ws|] == ws;
  }

  lemma {:induction false} UndueAppend(fs: seq<Fence>, f: Fence, x: Sample)
    ensures Undue(fs + [f], x) == if Due(f, x) then Undue(fs, x) else Undue(fs, x) + [f]
    ensures Broken(fs + [f], x) == if Due(f, x) && x.ts <= f.preWindow
                                   then Broken(fs, x) + [FenceFreshness(f.preWindow, x.ts, f.window.kind)]
                                   else Broken(fs, x)
  {
    assert (fs + [f])[..|fs|] == fs;
  }

  lemma {:induction false} UncheckedHas(ws: seq<OpenWindow>, x: Sample)
    ensures Covered(Unchecked(ws), x) <==>
              exists i :: 0 <= i < |ws| && !ws[i].checked && x.recvTime >= ws[i].fence.window.startedAt
  {
    if ws != [] {
      var n := |ws| - 1;
      UncheckedHas(ws[..n], x);
      var rest := Unchecked(ws[..n]);
      if Covered(rest, x) {
        var i :| 0 <= i < |rest| && x.recvTime >= rest[i].window.startedAt;
        assert Unchecked(ws)[i] == rest[i];
      }
      if !ws[n].checked && x.recvTime >= ws[n].fence.window.startedAt {
        assert Unchecked(ws)[|rest|] == ws[n].fence;
      }
      if Covered(Unchecked(ws), x) && !Covered(rest, x) {
        var i :| 0 <= i < |Unchecked(ws)| && x.recvTime >= Unchecked(ws)[i].window.startedAt;
        assert i == |rest|;
      }
    }
  }

  /** Whether the batch's timestamps are consecutive, pair by pair. */
  method CheckBatch(client: nat, batch: nat, values: seq<nat>) returns (found: seq<Violation>)
    ensures found == if Contiguous(values) then [] else [BatchOrdering(client, batch, values)]
  {
    var i := 0;
    while i + 1 < |values|
      invariant 0 <= i && (i > 0 ==> i < |values|) && forall j :: 0 <= j < i ==> values[j + 1] == values[j] + 1
    {
      if values[i + 1] != values[i] + 1 { return [BatchOrdering(client, batch, values)]; }
      i := i + 1;
    }
    return [];
  }

  class Supervisor {
    var highWater: nat
    var perClient: map<nat, nat>
    var seen: set<nat>
    var completed: Option<Completed>
    var openBatches: map<(nat, nat), seq<nat>>
    var openWindows: seq<OpenWindow>
    var chaosHistory: seq<Window>
    var violations: seq<Violation>

    ghost function View(): Memory
      reads this
    {
      Memory(highWater, perClient, seen, completed, openBatches, Unchecked(openWindows), chaosHistory, violations)
    }

    constructor ()
      ensures View() == BLANK
    {
      highWater, perClient, seen, completed := 0, map[], {}, None;
      openBatches, openWindows, chaosHistory, violations := map[], [], [], [];
    }

    /** Per-client order and uniqueness. */
    method CheckMonotonicity(x: Sample) returns (flagged: bool)
      modifies `perClient, `seen, `violations
      ensures violations == old(violations) + RepeatsNow(old(perClient), old(seen), x)
      ensures flagged <==> RepeatsNow(old(perClient), old(seen), x) != []
      ensures seen == old(seen) + {x.ts} && perClient == ClientsAfter(old(perClient), x)
    {
      flagged := false;
      var prev := if x.client in perClient then perClient[x.client] else 0;
      var found: seq<Violation> := [];
      if x.ts <= prev {
        flagged := true;
        found := found + [Monotonicity(prev, x.ts, x)];
      } else {
        perClient := perClient[x.client := x.ts];
      }
      if x.ts in seen {
        flagged := true;
        found := found + [Monotonicity(x.ts, x.ts, x)];
      }
      seen := seen + {x.ts};
      violations := violations + found;
    }

    /** Whether an unjudged leadership change covers this sample. */
    method CoveredByChaos(x: Sample) returns (covered: bool)
      ensures covered <==> Covered(Unchecked(openWindows), x)
    {
      UncheckedHas(openWindows, x);
      for i := 0 to |openWindows|
        invariant forall j :: 0 <= j < i ==> openWindows[j].checked || x.recvTime < openWindows[j].fence.window.startedAt
      {
        if !openWindows[i].checked && x.recvTime >= openWindows[i].fence.window.startedAt { return true; }
      }
      return false;
    }

    /** Judge every open window this sample is the first late one for. */
    method CheckFences(x: Sample)
      modifies `openWindows, `violations
      ensures violations == old(violations) + Broken(Unchecked(old(openWindows)), x)
      ensures Unchecked(openWindows) == Undue(Unchecked(old(openWindows)), x)
    {
      var found: seq<Violation> := [];
      var marked: seq<OpenWindow> := [];
      for i := 0 to |openWindows|
        invariant openWindows == old(openWindows) && violations == old(violations) && |marked| == i
        invariant found == Broken(Unchecked(openWindows[..i]), x)
        invariant Unchecked(marked) == Undue(Unchecked(openWindows[..i]), x)
      {
        var w := openWindows[i];
        assert openWindows[..i + 1] == openWindows[..i] + [w];
        UncheckedAppend(openWindows[..i], w);
        UndueAppend(Unchecked(openWindows[..i]), w.fence, x);
        var next := w;
        if !w.checked && x.recvTime >= PostGrace(w.fence.window) {
          if x.ts <= w.fence.preWindow {
            found := found + [FenceFreshness(w.fence.preWindow, x.ts, w.fence.window.kind)];
          }
          next := w.(checked := true);
        }
        UncheckedAppend(marked, next);
        marked := marked + [next];
      }
      assert openWindows[..|openWindows|] == openWindows;
      openWindows := marked;
      violations := violations + found;
    }

    /** Forget windows past grace that have been judged or never needed to be. */
    method Prune(x: Sample)
      modifies `openWindows
      ensures Unchecked(openWindows) == Unchecked(old(openWindows))
      ensures forall i :: 0 <= i < |openWindows| ==> x.recvTime < PostGrace(openWindows[i].fence.window) || !openWindows[i].checked
    {
      var kept: seq<OpenWindow> := [];
      for i := 0 to |openWindows|
        invariant openWindows == old(openWindows)
        invariant Unchecked(kept) == Unchecked(openWindows[..i])
        invariant forall j :: 0 <= j < |kept| ==> x.recvTime < PostGrace(kept[j].fence.window) || !kept[j].checked
      {
        var w := openWindows[i];
        assert openWindows[..i + 1] == openWindows[..i] + [w];
        UncheckedAppend(openWindows[..i], w);
        UncheckedAppend(kept, w);
        if x.recvTime < PostGrace(w.fence.window) || !w.checked { kept := kept + [w]; }
      }
      assert openWindows[..|openWindows|] == openWindows;
      openWindows := kept;
    }

    method JudgeWindows(x: Sample)
      modifies `openWindows, `violations
      ensures violations == old(violations) + Broken(Unchecked(old(openWindows)), x)
      ensures Unchecked(openWindows) == Undue(Unchecked(old(openWindows)), x)
    {
      CheckFences(x);
      Prune(x);
    }

    /** Real-time order against the highest-stamped earlier sample. */
    method CheckRealtime(x: Sample, quiet: bool)
      modifies `completed, `violations
      ensures violations == old(violations) + Inversions(old(completed), quiet, x)
      ensures completed == CompletedAfter(old(completed), x)
    {
      if !quiet && completed.Some? {
        var prior := completed.value;
        if x.issuedAt >= prior.recvTime && x.recvTime >= prior.recvTime && x.ts <= prior.ts {
          violations := violations + [CrossClientRealtime(prior.ts, x.ts, x)];
        }
      }
      if !(completed.Some? && x.ts <= completed.value.ts) {
        completed := Some(Completed(x.ts, x.recvTime));
      }
    }

    /** Collect the batch and check it when it closes. */
    method TrackBatch(x: Sample)
      modifies `openBatches, `violations
      ensures violations == old(violations) + DisorderNow(old(openBatches), x)
      ensures openBatches == BatchesAfter(old(openBatches), x)
    {
      var key := (x.client, x.batch);
      var values := ValuesOf(openBatches, key) + [x.ts];
      if x.isLast {
        openBatches := openBatches - {key};
        var found := CheckBatch(x.client, x.batch, values);
        violations := violations + found;
      } else {
        openBatches := openBatches[key := values];
      }
    }

    method OnIssued(x: Sample)
      modifies this
      ensures View() == AfterSample(old(View()), x)
    {
      var flagged := CheckMonotonicity(x);
      if x.ts > highWater { highWater := x.ts; }
      var covered := CoveredByChaos(x);
      JudgeWindows(x);
      CheckRealtime(x, flagged || covered);
      TrackBatch(x);
    }

    method OnChaos(w: Window, applied: bool)
      modifies this
      ensures View() == AfterChaos(old(View()), w, applied)
    {
      if !applied { return; }
      var entry := OpenWindow(Fence(w, highWater), w.kind.FailpointArm? || w.kind.FailpointDisarm?);
      UncheckedAppend(openWindows, entry);
      chaosHistory := chaosHistory + [w];
      openWindows := openWindows + [entry];
    }

    /** Whether some applied window, however long ago, explains the incident. */
    method ChaosExplains(incident: Incident) returns (attributable: bool)
      ensures attributable <==> Attributable(chaosHistory, incident)
    {
      for i := 0 to |chaosHistory|
        invariant forall j :: 0 <= j < i ==> !Explains(chaosHistory[j], incident)
      {
        if Explains(chaosHistory[i], incident) { return true; }
      }
      return false;
    }

    method OnLiveness(incident: Incident)
      modifies this
      ensures View() == AfterLiveness(old(View()), incident)
    {
      var attributable := ChaosExplains(incident);
      if !attributable { violations := violations + [LivenessLost(incident)]; }
    }

    method Consume(e: Event)
      modifies this
      ensures View() == Next(old(View()), e)
    {
      match e
      case Issued(x) => OnIssued(x);
      case Chaos(w, applied) => OnChaos(w, applied);
      case Liveness(incident) => OnLiveness(incident);
      case End =>
    }

    /** Unsettled batches and windows are dropped without a report. */
    method FinalPass()
      modifies this
      ensures View() == old(View()).(openBatches := map[], fences := [])
    {
      openBatches, openWindows := map[], [];
    }
  }

  /** The events consumed before the first `End`. */
  function Consumed(events: seq<Event>): seq<Event> {
    if events == [] || events[0].End? then [] else [events[0]] + Consumed(events[1..])
  }

  lemma {:induction false} ConsumedAll(events: seq<Event>, n: nat)
    requires n <= |events| && forall i :: 0 <= i < n ==> !events[i].End?
    requires n == |events| || events[n].End?
    ensures Consumed(events) == events[..n]
  {
    if n > 0 { ConsumedAll(events[1..], n - 1); }
  }

  lemma {:induction false} RunReport(events: seq<Event>, n: nat)
    requires n <= |events| && (forall i :: 0 <= i < n ==> !events[i].End?) && (n == |events| || events[n].End?)
    ensures Replay(events, n).violations == Violations(Consumed(events))
    ensures Replay(events, n).highWater == MaxTs(Consumed(events))
  {
    ConsumedAll(events, n);
    ReplaySummarises(events, n);
  }

  /** The consuming loop, up to the first `End` or the end of the stream. */
  method Feed(s: Supervisor, events: seq<Event>) returns (n: nat)
    requires s.View() == BLANK
    modifies s
    ensures n <= |events| && (forall i :: 0 <= i < n ==> !events[i].End?) && (n == |events| || events[n].End?)
    ensures s.View() == Replay(events, n)
  {
    n := 0;
    while n < |events| && !events[n].End?
      invariant n <= |events| && forall i :: 0 <= i < n ==> !events[i].End?
      invariant s.View() == Replay(events, n)
    {
      s.Consume(events[n]);
      n := n + 1;
    }
  }

  /** A whole run.  The online checks report exactly what the definitions over the complete
      event sequence say they should. */
  method Run(events: seq<Event>) returns (violations: seq<Violation>, highWater: nat)
    ensures violations == Violations(Consumed(events)) && highWater == MaxTs(Consumed(events))
  {
    var s := new Supervisor();
    var n := Feed(s, events);
    RunReport(events, n);
    s.FinalPass();
    return s.violations, s.highWater;
  }
}
