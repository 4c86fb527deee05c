/** The timestamp call: passes over the worklist until a reply is good or nothing is left to
    try.  The loop plays a script of attempts and is proved to produce legal traces. */
module RetryLoop {
  import opened Wrappers
  import opened Basics
  import opened ClientTypes
  import opened Budgets
  import opened Worklists
  import opened Retry

  /** What an attempt with this budget comes to: an error unless the channel opens and the
      reply arrives in time. */
  function Verdict<R>(a: Attempt<Outcome<R>>, budget: nat): Outcome<R> {
    if a.timing.connectTook > budget then Err(Rpc(TIMED_OUT))
    else if a.connectError.Some? then Err(a.connectError.value)
    else if a.timing.connectTook + a.timing.rpcTook > budget then Err(Rpc(TIMED_OUT))
    else a.reply
  }

  /** Dial `d` met attempt `a`. */
  ghost predicate Met<R>(d: Dial<R>, a: Attempt<Outcome<R>>) {
    d.outcome == Verdict(a, d.budget) && d.endedAt == d.startedAt + Took(a, d.budget)
  }

  /** Dial `i` met attempt `i` of the script, and none was skipped. */
  ghost predicate Played<R>(script: seq<Attempt<Outcome<R>>>, trace: seq<Dial<R>>) {
    |trace| <= |script|
    && (trace == [] || (Met(trace[|trace| - 1], script[|trace| - 1]) && Played(script, trace[..|trace| - 1])))
  }

  lemma {:induction false} PlayedAt<R>(script: seq<Attempt<Outcome<R>>>, trace: seq<Dial<R>>, i: nat)
    requires Played(script, trace) && i < |trace|
    ensures Met(trace[i], script[i])
  {
    if i < |trace| - 1 { PlayedAt(script, trace[..|trace| - 1], i); }
  }

  lemma {:induction false} PlayedAppend<R>(script: seq<Attempt<Outcome<R>>>, trace: seq<Dial<R>>, d: Dial<R>)
    requires Played(script, trace) && |trace| < |script| && Met(d, script[|trace|])
    ensures Played(script, trace + [d])
  {
    assert (trace + [d])[..|trace|] == trace;
  }

  /** One attempt at `e` and the loop's bookkeeping for it. */
  method DialOnce<R>(policy: Policy, b: Budget, cap: nat, s: Loop, e: Endpoint, now: nat, budget: nat, a: Attempt<Outcome<R>>)
    returns (d: Dial<R>)
    requires NextAttempt(b, now) == Some(budget) && s.wokeAt <= now && s.failed < cap
    requires Pick(s.queue, s.visited) == Some(e)
    ensures Admissible(s, b, cap, d) && d.pass == s.pass && d.endpoint == e
    ensures d.startedAt == now && d.budget == budget && Met(d, a)
    ensures d.wokeAt - d.endedAt == if d.outcome.Err? && !Definite(d.outcome.err)
                                    then Nap(b, d.endedAt, policy.baseBackoff, s.failed, a.jitter) else 0
  {
    var end, endedAt := RunPair(now, budget, a.timing, a.connectError.None?);
    var outcome: Outcome<R> := match end
      case ConnectTimedOut => Err(Rpc(TIMED_OUT))
      case ConnectFailed => Err(a.connectError.value)
      case RpcTimedOut => Err(Rpc(TIMED_OUT))
      case Replied => a.reply;
    var nap := 0;
    if outcome.Err? && ShouldBackoff(outcome.err) {
      nap := Nap(b, endedAt, policy.baseBackoff, s.failed, a.jitter);
    }
    d := React(s, e, now, budget, endedAt, nap, outcome);
  }

  /** The loop at its head: `s` is its state after `trace`, inside `pass`. */
  ghost predicate Running<R>(seeds: seq<seq<Endpoint>>, b: Budget, cap: nat, script: seq<Attempt<Outcome<R>>>,
                             trace: seq<Dial<R>>, pass: nat, now: nat, s: Loop) {
    && Open(seeds, b, cap, trace, pass, now) && Played(script, trace)
    && s == Enter(LoopAfter(seeds, trace), seeds, pass) && s.pass == pass && s.redirects <= MAX_LEADER_REDIRECTS
  }

  /** The loop right after a redirect cap cut the pass short. */
  ghost predicate Cut<R>(seeds: seq<seq<Endpoint>>, b: Budget, cap: nat, script: seq<Attempt<Outcome<R>>>,
                         trace: seq<Dial<R>>, pass: nat, now: nat, s: Loop) {
    && Unsettled(seeds, b, cap, trace, now) && Played(script, trace)
    && CutShort(trace) && s == LoopAfter(seeds, trace) && s.pass == pass
  }

  /** One more dial. */
  lemma {:induction false} DialExtends<R>(seeds: seq<seq<Endpoint>>, b: Budget, cap: nat, script: seq<Attempt<Outcome<R>>>,
                                          trace: seq<Dial<R>>, now: nat, s: Loop, d: Dial<R>)
    requires Running(seeds, b, cap, script, trace, s.pass, now, s) && |trace| < |script|
    requires Admissible(s, b, cap, d) && d.pass == s.pass && Met(d, script[|trace|])
    ensures Legal(seeds, b, cap, trace + [d]) && Played(script, trace + [d])
    ensures PassMeasure(Record(s, d)) < PassMeasure(s)
    ensures !Terminal(d.outcome) && (d.outcome.Hint? ==> OnHint(s).Continue?) ==>
              Running(seeds, b, cap, script, trace + [d], s.pass, d.wokeAt, Record(s, d))
    ensures d.outcome.Hint? && !OnHint(s).Continue? ==>
              Cut(seeds, b, cap, script, trace + [d], s.pass, d.wokeAt, Record(s, d)) && (d.signalled <==> OnHint(s).EndPass?)
  {
    OpenAppend(seeds, b, cap, trace, now, s, d);
    DialUsesUpPass(s, b, cap, d);
    PlayedAppend(script, trace, d);
  }

  /** A pass that stopped, for a reason that holds. */
  ghost predicate Stopped<R>(seeds: seq<seq<Endpoint>>, b: Budget, cap: nat, script: seq<Attempt<Outcome<R>>>,
                             trace: seq<Dial<R>>, pass: nat, now: nat, s: Loop, stop: Stop) {
    match stop
    case Answered =>
      trace != [] && trace[|trace| - 1].outcome.Ok? && trace[|trace| - 1].pass == pass
      && Legal(seeds, b, cap, trace) && Played(script, trace)
    case PassOver =>
      || (Running(seeds, b, cap, script, trace, pass, now, s) && !Due(s, b, cap, now))
      || (Cut(seeds, b, cap, script, trace, pass, now, s) && !OutOfRedirects(trace))
    case CallOver => Cut(seeds, b, cap, script, trace, pass, now, s) && OutOfRedirects(trace)
    case RanOut => Running(seeds, b, cap, script, trace, pass, now, s) && |trace| == |script| && Due(s, b, cap, now)
  }

  /** Dial `e`, extend the trace, stop on success or at a redirect cap, and otherwise name
      the hint to follow. */
  method DialNext<R>(
    policy: Policy, b: Budget, cap: nat, seeds: seq<seq<Endpoint>>, script: seq<Attempt<Outcome<R>>>,
    trace: seq<Dial<R>>, now: nat, s: Loop, e: Endpoint, budget: nat)
    returns (longer: seq<Dial<R>>, later: nat, s': Loop, hint: Option<Endpoint>, stop: Option<Stop>)
    requires Running(seeds, b, cap, script, trace, s.pass, now, s) && |trace| < |script|
    requires forall i :: 0 <= i < |script| ==> !script[i].reply.Uncertain?
    requires NextAttempt(b, now) == Some(budget) && s.failed < cap && Pick(s.queue, s.visited) == Some(e)
    ensures OneMore(trace, now, longer, later, s.pass)
    ensures stop.Some? ==> Stopped(seeds, b, cap, script, longer, s.pass, later, s', stop.value)
    ensures stop.None? ==> && Running(seeds, b, cap, script, longer, s.pass, later, s') && PassMeasure(s') < PassMeasure(s)
                           && s'.visited == s.visited + {e} && s'.queue == Requeued(s, hint)
  {
    var d := DialOnce(policy, b, cap, s, e, now, budget, script[|trace|]);
    DialExtends(seeds, b, cap, script, trace, now, s, d);
    longer, later, s', hint := trace + [d], d.wokeAt, Record(s, d), None;
    if d.outcome.Ok? { return longer, later, s', hint, Some(Answered); }
    if d.outcome.Hint? {
      var next := OnHint(s);
      if next.EndCall? { return longer, later, s', hint, Some(CallOver); }
      if next.EndPass? { return longer, later, s', hint, Some(PassOver); }
      hint := Some(d.outcome.hinted);
    }
    return longer, later, s', hint, None;
  }

  /** One turn of the loop with `e` popped off the worklist: stop, or dial it. */
  method Turn<R>(
    policy: Policy, b: Budget, cap: nat, seeds: seq<seq<Endpoint>>, script: seq<Attempt<Outcome<R>>>,
    trace: seq<Dial<R>>, now: nat, s: Loop, e: Option<Endpoint>)
    returns (longer: seq<Dial<R>>, later: nat, s': Loop, hint: Option<Endpoint>, stop: Option<Stop>)
    requires Running(seeds, b, cap, script, trace, s.pass, now, s) && e == Pick(s.queue, s.visited)
    requires forall i :: 0 <= i < |script| ==> !script[i].reply.Uncertain?
    ensures (longer == trace && later == now) || OneMore(trace, now, longer, later, s.pass)
    ensures stop.Some? ==> Stopped(seeds, b, cap, script, longer, s.pass, later, s', stop.value)
    ensures stop.None? ==> && Running(seeds, b, cap, script, longer, s.pass, later, s') && PassMeasure(s') < PassMeasure(s)
                           && e.Some? && s'.visited == s.visited + {e.value} && s'.queue == Requeued(s, hint)
  {
    if e.None? || s.failed >= cap { return trace, now, s, None, Some(PassOver); }
    var granted := NextAttempt(b, now);
    if granted.None? { return trace, now, s, None, Some(PassOver); }
    if |trace| == |script| { return trace, now, s, None, Some(RanOut); }
    longer, later, s', hint, stop := DialNext(policy, b, cap, seeds, script, trace, now, s, e.value, granted.value);
  }

  lemma {:induction false} PassBegins<R>(seeds: seq<seq<Endpoint>>, b: Budget, cap: nat, script: seq<Attempt<Outcome<R>>>,
                                         before: seq<Dial<R>>, pass: nat, began: nat, s: Loop)
    requires pass < |seeds| && Open(seeds, b, cap, before, pass, began) && Played(script, before)
    requires before == [] || LoopAfter(seeds, before).pass < pass
    requires s == Enter(LoopAfter(seeds, before), seeds, pass)
    ensures Running(seeds, b, cap, script, before, pass, began, s) && s.queue == seeds[pass] && s.visited == {}
  {
  }

  /** One pass over the worklist, whatever the endpoints answer. */
  method RunPass<R>(
    policy: Policy, b: Budget, cap: nat, seeds: seq<seq<Endpoint>>, pass: nat, script: seq<Attempt<Outcome<R>>>,
    before: seq<Dial<R>>, began: nat)
    returns (trace: seq<Dial<R>>, now: nat, s: Loop, stop: Stop)
    requires pass < |seeds| && Open(seeds, b, cap, before, pass, began) && Played(script, before)
    requires before == [] || LoopAfter(seeds, before).pass < pass
    requires forall i :: 0 <= i < |script| ==> !script[i].reply.Uncertain?
    ensures Stopped(seeds, b, cap, script, trace, pass, now, s, stop)
    ensures InStep(before, trace, pass, began) && now == StandsAt(before, trace, began)
  {
    trace, now := before, began;
    var worklist := new Worklist(seeds[pass]);
    s := Enter(LoopAfter(seeds, trace), seeds, pass);
    PassBegins(seeds, b, cap, script, before, pass, began, s);
    while true
      invariant Running(seeds, b, cap, script, trace, pass, now, s)
      invariant InStep(before, trace, pass, began) && now == StandsAt(before, trace, began)
      invariant s.queue == worklist.queue && s.visited == worklist.visited
      decreases PassMeasure(s)
    {
      var e := worklist.Next();
      var hint, over;
      ghost var shorter := trace;
      trace, now, s, hint, over := Turn(policy, b, cap, seeds, script, trace, now, s, e);
      if trace != shorter { TurnStepsOn(before, shorter, trace, pass, began, now); }
      if over.Some? { return trace, now, s, over.value; }
      if hint.Some? { worklist.RedirectTo(hint.value); }
    }
  }

  lemma {:induction false} StoppedFits<R>(seeds: seq<seq<Endpoint>>, b: Budget, cap: nat, script: seq<Attempt<Outcome<R>>>,
                                          trace: seq<Dial<R>>, pass: nat, now: nat, s: Loop, stop: Stop)
    requires Stopped(seeds, b, cap, script, trace, pass, now, s, stop)
    requires pass > 0 ==> trace != []
    ensures PassesFit(trace, pass + 1) && Legal(seeds, b, cap, trace) && Played(script, trace)
    ensures stop.Answered? <==> trace != [] && Terminal(trace[|trace| - 1].outcome)
    ensures !stop.Answered? ==> LoopAfter(seeds, trace).pass <= pass && s == Enter(LoopAfter(seeds, trace), seeds, pass)
    ensures stop.PassOver? && !CutShort(trace) ==> !Due(s, b, cap, now)
    ensures stop.CallOver? <==> OutOfRedirects(trace)
    ensures stop.RanOut? ==> |trace| == |script| && Due(s, b, cap, now)
  {
    if trace != [] { assert LoopAfter(seeds, trace).pass == trace[|trace| - 1].pass; }
  }

  lemma {:induction false} NextPassOpens<R>(seeds: seq<seq<Endpoint>>, b: Budget, cap: nat, script: seq<Attempt<Outcome<R>>>,
                                            trace: seq<Dial<R>>, pass: nat, now: nat, s: Loop, later: nat)
    requires Stopped(seeds, b, cap, script, trace, pass, now, s, PassOver) && s.sawSignal
    requires NextAttempt(b, now).Some? && now <= later <= b.deadline
    ensures Open(seeds, b, cap, trace, pass + 1, later) && LoopAfter(seeds, trace).pass <= pass
  {
  }

  /** How a finished call relates to its trace. */
  ghost predicate Finished<R>(seeds: seq<seq<Endpoint>>, b: Budget, cap: nat, script: seq<Attempt<Outcome<R>>>,
                              ending: Ending<R>, trace: seq<Dial<R>>, pass: nat, now: nat, s: Loop) {
    && Legal(seeds, b, cap, trace) && Played(script, trace) && PassesFit(trace, pass + 1)
    && (ending.Served? <==> trace != [] && Terminal(trace[|trace| - 1].outcome))
    && (ending.Served? ==> trace[|trace| - 1].outcome == Ok(ending.result))
    && (!ending.Served? ==> LoopAfter(seeds, trace).pass <= pass && s == Enter(LoopAfter(seeds, trace), seeds, pass))
    && (ending.Failed? ==> ending.err == Surfaced(seeds, trace) && GaveUp(trace, s, b, cap, now))
    && (ending.OutOfScript? ==>
          (|trace| == |script| && Due(s, b, cap, now)) || (pass + 1 == |seeds| && GoesOnIn(LoopAfter(seeds, trace), cap, trace, pass + 1)))
  }

  /** The call at the start of a pass. */
  ghost predicate Underway<R>(seeds: seq<seq<Endpoint>>, b: Budget, cap: nat, script: seq<Attempt<Outcome<R>>>,
                              trace: seq<Dial<R>>, pass: nat, now: nat) {
    && pass < |seeds| && Open(seeds, b, cap, trace, pass, now) && Played(script, trace) && PassesFit(trace, pass + 1)
    && if trace == [] then pass == 0 else LoopAfter(seeds, trace).pass < pass
  }

  /** One pass and what follows it: the end of the call, or a nap before the next pass. */
  method PassAndNap<R>(policy: Policy, b: Budget, cap: nat, seeds: seq<seq<Endpoint>>, pass: nat, script: seq<Attempt<Outcome<R>>>,
                       jitter: nat, before: seq<Dial<R>>, began: nat)
    returns (ending: Option<Ending<R>>, trace: seq<Dial<R>>, now: nat, s: Loop)
    requires Underway(seeds, b, cap, script, before, pass, began)
    requires forall i :: 0 <= i < |script| ==> !script[i].reply.Uncertain?
    ensures ending.Some? ==> Finished(seeds, b, cap, script, ending.value, trace, pass, now, s)
    ensures ending.None? ==> && (pass + 1 < |seeds| ==> Underway(seeds, b, cap, script, trace, pass + 1, now))
                             && (pass + 1 == |seeds| ==> Finished(seeds, b, cap, script, OutOfScript, trace, pass, now, s))
    ensures InStep(before, trace, pass, began)
    ensures ending.Some? ==> now == StandsAt(before, trace, began)
    ensures ending.None? ==> && |trace| > |before|
                             && var woke := trace[|trace| - 1].wokeAt;
                                now == woke + Nap(b, woke, policy.baseBackoff, pass, jitter)
  {
    var stop;
    trace, now, s, stop := RunPass(policy, b, cap, seeds, pass, script, before, began);
    StoppedFits(seeds, b, cap, script, trace, pass, now, s, stop);
    if stop.Answered? { return Some(Served(trace[|trace| - 1].outcome.result)), trace, now, s; }
    if stop.RanOut? { return Some(OutOfScript), trace, now, s; }
    if stop.CallOver? || !s.sawSignal || NextAttempt(b, now).None? { return Some(Failed(Surfaced(seeds, trace))), trace, now, s; }
    var nap := Nap(b, now, policy.baseBackoff, pass, jitter);
    NextPassOpens(seeds, b, cap, script, trace, pass, now, s, now + nap);
    return None, trace, now + nap, s;
  }

  lemma {:induction false} SweptWhenCold<R>(seeds: seq<seq<Endpoint>>, b: Budget, cap: nat, script: seq<Attempt<Outcome<R>>>,
                                            ending: Ending<R>, trace: seq<Dial<R>>, pass: nat, now: nat, s: Loop)
    requires Finished(seeds, b, cap, script, ending, trace, pass, now, s) && cap >= |SeedOf(seeds, 0)|
    ensures ending.Failed? && pass == 0 && now < b.deadline && !OutOfRedirects(trace) ==>
              Members(SeedOf(seeds, 0)) <= EndpointsOf(InPass(trace, 0))
  {
    if ending.Failed? && pass == 0 && now < b.deadline && !OutOfRedirects(trace) {
      ColdSweepIsComplete(seeds, b, cap, trace, s, now);
    }
  }

  /** The timestamp call.  It ends in success with the first good reply, and in failure
      only when its last pass had nothing left to dial and no further pass was due; `s` is
      the loop's state in that pass.  Whatever the failed-attempt cap, a call that fails in
      its first pass with time and redirects left has dialed every endpoint of its seed. */
  method IssueRpc<R>(policy: Policy, startedAt: nat, seeds: seq<seq<Endpoint>>, script: seq<Attempt<Outcome<R>>>, naps: seq<nat>)
    returns (ending: Ending<R>, trace: seq<Dial<R>>, pass: nat, endedAt: nat, s: Loop)
    requires |naps| >= |seeds| > 0
    requires forall i :: 0 <= i < |script| ==> !script[i].reply.Uncertain?
    ensures Finished(seeds, Start(policy, startedAt), AttemptCap(policy, seeds), script, ending, trace, pass, endedAt, s)
    ensures trace == [] ==> endedAt == startedAt && pass == 0
    ensures Paced(policy, startedAt, naps, trace)
    ensures forall i :: 0 <= i < |trace| ==> WithinPolicy(policy, startedAt, trace[i])
    ensures ending.Failed? && pass == 0 && endedAt < startedAt + policy.overall && !OutOfRedirects(trace) ==>
              Members(seeds[0]) <= EndpointsOf(InPass(trace, 0))
  {
    var b := Start(policy, startedAt);
    var cap := AttemptCap(policy, seeds);
    trace, endedAt, pass := [], startedAt, 0;
    while true
      invariant Underway(seeds, b, cap, script, trace, pass, endedAt) && OnTimeFor(policy, startedAt, naps, trace, pass, endedAt)
      decreases |seeds| - pass
    {
      var over;
      ghost var before, began := trace, endedAt;
      over, trace, endedAt, s := PassAndNap(policy, b, cap, seeds, pass, script, naps[pass], trace, endedAt);
      PassIsPaced(policy, startedAt, naps, before, trace, pass, began);
      if over.Some? { ending := over.value; break; }
      if pass + 1 == |seeds| { ending := OutOfScript; break; }
      pass := pass + 1;
    }
    AllWithinPolicy(policy, startedAt, seeds, cap, trace);
    SweptWhenCold(seeds, b, cap, script, ending, trace, pass, endedAt, s);
  }

  /** A failed call, read off its trace: it met one hint too many, or ran out of time, or
      nobody in its last pass signalled an election and either the failed-attempt cap was
      reached or the pass had dialed its whole seed and every hint it followed. */
  lemma {:induction false} FailureWasDue<R>(seeds: seq<seq<Endpoint>>, b: Budget, cap: nat, script: seq<Attempt<Outcome<R>>>,
                                            ending: Ending<R>, trace: seq<Dial<R>>, pass: nat, now: nat, s: Loop)
    requires Finished(seeds, b, cap, script, ending, trace, pass, now, s) && ending.Failed?
    ensures var mine := InPass(trace, pass);
            || (trace != [] && trace[|trace| - 1].outcome.Hint? && Pivots(trace[..|trace| - 1]) == MAX_TOTAL_LEADER_REDIRECTS)
            || now >= b.deadline
            || (!SomeSignal(mine) && (Failures(trace) >= cap || Members(SeedOf(seeds, pass)) + HintsOf(mine) <= EndpointsOf(mine)))
  {
    GivingUpMeans(seeds, b, cap, trace, pass, s, now);
  }

  /** What each attempt of the script came to: a slow or failed connect and a slow reply are
      charged as failures under their own error, a reply in time counts as it is. */
  lemma {:induction false} AttemptIsBooked<R>(seeds: seq<seq<Endpoint>>, b: Budget, cap: nat, script: seq<Attempt<Outcome<R>>>, trace: seq<Dial<R>>, i: nat)
    requires Legal(seeds, b, cap, trace) && Played(script, trace) && i < |trace|
    ensures var a, d := script[i], trace[i];
            var connected := a.timing.connectTook <= d.budget && a.connectError.None?;
            var late := a.timing.connectTook > d.budget || (connected && a.timing.connectTook + a.timing.rpcTook > d.budget);
            && d.endedAt - d.startedAt <= d.budget
            && (late ==> d.recorded == Some(Rpc(TIMED_OUT)) && d.endedAt == d.startedAt + d.budget)
            && (!late && !connected ==> d.recorded == a.connectError && d.endedAt == d.startedAt + a.timing.connectTook)
            && (late || !connected ==> !d.signalled && Failures(trace[..i + 1]) == Failures(trace[..i]) + 1)
            && (!late && connected ==> d.outcome == a.reply && d.endedAt == d.startedAt + a.timing.connectTook + a.timing.rpcTook)
  {
    PlayedAt(script, trace, i);
    OutcomeIsBooked(seeds, b, cap, trace, i);
    TimedAt(seeds, b, cap, trace, i);
  }

  /** What a served caller got is the first good reply of the script: the attempt met by
      the last dial gave it, in time, and no earlier attempt gave any. */
  lemma {:induction false} ServedIsFirstGoodReply<R>(seeds: seq<seq<Endpoint>>, b: Budget, cap: nat, script: seq<Attempt<Outcome<R>>>,
                                                     ending: Ending<R>, trace: seq<Dial<R>>, pass: nat, now: nat, s: Loop, i: nat)
    requires Finished(seeds, b, cap, script, ending, trace, pass, now, s) && ending.Served? && i < |trace|
    ensures |trace| <= |script|
    ensures i == |trace| - 1 <==>
              script[i].reply.Ok? && script[i].connectError.None? && script[i].timing.connectTook + script[i].timing.rpcTook <= trace[i].budget
    ensures i == |trace| - 1 ==> script[i].reply == Ok(ending.result)
  {
    PlayedAt(script, trace, i);
    if i + 1 < |trace| { NothingFollowsTerminal(seeds, b, cap, trace, i); }
  }

  /** After the one endpoint named itself there is nothing left to dial and no error to tell. */
  lemma {:induction false} SelfHintLeavesNothing<R>(e: Endpoint, b: Budget, cap: nat, trace: seq<Dial<R>>)
    requires Legal([[e]], b, cap, trace) && |trace| == 1 && trace[0].outcome == Hint(e)
    ensures var s := LoopAfter([[e]], trace);
            && s.pass == 0 && !s.sawSignal && !CutShort(trace)
            && Pick(s.queue, s.visited).None? && Surfaced([[e]], trace) == NoReachableEndpoints
  {
    var none: seq<Dial<R>> := [];
    assert trace[..0] == none;
    assert SeedOf([[e]], 0) == [e];
  }

  /** Before the first dial it was due. */
  lemma {:induction false} FirstDialIsDue<R>(e: Endpoint, b: Budget, cap: nat, now: nat)
    requires cap > 0 && now < b.deadline
    ensures var none: seq<Dial<R>> := [];
            var s := LoopAfter([[e]], none);
            Due(s, b, cap, now) && s.pass == 0 && s.redirects == s.total == 0 && !s.sawSignal
  {
    assert SeedOf([[e]], 0) == [e];
  }

  /** A lone peer that answers at once but names itself makes the call report that nothing
      was reachable, although it was. */
  method AskSelfHinting<R>(policy: Policy, startedAt: nat, e: Endpoint, jitter: nat) returns (ending: Ending<R>, trace: seq<Dial<R>>)
    requires policy.overall > 0
    ensures ending == Failed(NoReachableEndpoints) && |trace| == 1 && trace[0].outcome == Hint(e)
  {
    var script: seq<Attempt<Outcome<R>>> := [Attempt(Timing(0, 0), None, Hint(e), jitter)];
    var pass, endedAt, s;
    ending, trace, pass, endedAt, s := IssueRpc(policy, startedAt, [[e]], script, [0]);
    FirstDialIsDue<R>(e, Start(policy, startedAt), AttemptCap(policy, [[e]]), startedAt);
    if |trace| == 1 {
      PlayedAt(script, trace, 0);
      SelfHintLeavesNothing(e, Start(policy, startedAt), AttemptCap(policy, [[e]]), trace);
    }
  }
}
