/** The dense-sequence call: client pre-checks, reply classification, and the retry loop
    that never sends again after an ambiguous outcome. */
module SeqRetry {
  import opened Wrappers
  import opened Basics
  import opened ClientTypes
  import opened Budgets
  import opened Worklists
  import opened Retry

  type Byte = x: int | 0 <= x < 256

  /** A sequence key, as the bytes of its UTF-8 text: its length is counted in those. */
  type Key = seq<Byte>

  const MAX_SEQ_KEY_LEN: nat := 128

  datatype Entry = Entry(key: Key, count: nat)

  datatype Grant = Grant(key: Key, start: nat, count: nat)

  datatype SeqBlock = SeqBlock(start: nat, count: nat, epoch: nat)

  /** What comes back from the wire: a grant list, or a status.  `seated` says whether the
      leader cache accepted the hint that the status carried, if it carried a usable one. */
  datatype SeqReply =
    | Granted(grants: seq<Grant>, epoch: Option<nat>)
    | Refused(status: Status, hint: Option<Endpoint>, seated: bool)

  // ------------------------------------------------------------------
  // Pre-checks
  // ------------------------------------------------------------------

  predicate KeyOk(k: Key) { 1 <= |k| <= MAX_SEQ_KEY_LEN }

  ghost predicate DistinctKeys(entries: seq<Entry>) {
    forall i, j :: 0 <= i < j < |entries| ==> entries[i].key != entries[j].key
  }

  /** Nothing is wrong with any of the first `n` entries. */
  ghost predicate SoundUpTo(entries: seq<Entry>, n: nat) {
    && n <= |entries|
    && (forall i :: 0 <= i < n ==> KeyOk(entries[i].key) && entries[i].count >= 1)
    && (forall i, j :: 0 <= i < j < n ==> entries[i].key != entries[j].key)
  }

  /** A batch the client is willing to send. */
  ghost predicate WellFormedBatch(entries: seq<Entry>) { entries != [] && SoundUpTo(entries, |entries|) }

  /** Entry `n` is the first with something wrong. */
  ghost predicate FirstFault(entries: seq<Entry>, n: nat) {
    n < |entries| && SoundUpTo(entries, n) && !SoundUpTo(entries, n + 1)
  }

  /** A batch is refused for its first faulty entry: an absent count if its key is of valid
      length, and its key otherwise, whether of invalid length or used before. */
  method PreCheck(entries: seq<Entry>) returns (refusal: Option<ClientError>)
    ensures refusal.None? <==> WellFormedBatch(entries)
    ensures refusal.None? ==> forall i :: 0 <= i < |entries| ==> 1 <= |entries[i].key| <= 128
    ensures entries == [] ==> refusal == Some(ClientError.InvalidCount(0))
    ensures refusal.Some? && entries != [] ==>
              exists n: nat :: FirstFault(entries, n)
                && refusal.value == if 1 <= |entries[n].key| <= 128 && entries[n].count == 0 then ClientError.InvalidCount(0) else InvalidSeqKey
  {
    if entries == [] { return Some(ClientError.InvalidCount(0)); }
    var seen: set<Key> := {};
    for n := 0 to |entries|
      invariant forall k :: k in seen <==> exists i :: 0 <= i < n && entries[i].key == k
      invariant SoundUpTo(entries, n)
    {
      var e := entries[n];
      assert !KeyOk(e.key) || e.count == 0 ==> FirstFault(entries, n);
      if e.key == [] || |e.key| > MAX_SEQ_KEY_LEN { return Some(InvalidSeqKey); }
      if e.count == 0 { return Some(ClientError.InvalidCount(0)); }
      if e.key in seen {
        assert FirstFault(entries, n);
        return Some(InvalidSeqKey);
      }
      seen := seen + {e.key};
    }
    return None;
  }

  // ------------------------------------------------------------------
  // Reply classification
  // ------------------------------------------------------------------

  /** Codes that a conforming server only returns before any durable advance. */
  predicate PreCommitCertain(code: Code) {
    code.InvalidArgument? || code.ResourceExhausted? || code.Unimplemented? || code.FailedPrecondition?
  }

  function ClassifySeqStatus(status: Status, sent: bool): Outcome<seq<SeqBlock>> {
    match status.code
    case InvalidArgument => Err(Rpc(status))
    case ResourceExhausted => Err(Rpc(status))
    case Unimplemented => Err(Rpc(status))
    case _ => if sent then Uncertain else Err(Rpc(status))
  }

  /** A success reply that describes exactly the batch that was asked for. */
  predicate Matches(entries: seq<Entry>, reply: SeqReply) {
    && reply.Granted? && reply.epoch.Some? && |reply.grants| == |entries|
    && forall i :: 0 <= i < |entries| ==>
         reply.grants[i].key == entries[i].key && reply.grants[i].count == entries[i].count
  }

  function BlocksOf(grants: seq<Grant>, epoch: nat): seq<SeqBlock> {
    seq(|grants|, i requires 0 <= i < |grants| => SeqBlock(grants[i].start, grants[i].count, epoch))
  }

  /** The loop's verdict on a reply that arrived in time. */
  function Classify(entries: seq<Entry>, reply: SeqReply): Outcome<seq<SeqBlock>> {
    match reply
    case Granted(grants, epoch) =>
      if Matches(entries, reply) then Ok(BlocksOf(grants, epoch.value)) else Uncertain
    case Refused(status, hint, seated) =>
      if status.code != FailedPrecondition then ClassifySeqStatus(status, true)
      else if status.hint.Absent? then ClassifySeqStatus(status, false)
      else if hint.None? then Err(Rpc(status))
      else if seated then Hint(hint.value)
      else Unusable(status, true)
  }

  /** Retrying is reserved for replies a conforming server sends before committing, and
      a success is believed only when it matches the request position by position. */
  lemma {:induction false} RetriesOnlyWhenCertain(entries: seq<Entry>, reply: SeqReply)
    ensures !Terminal(Classify(entries, reply)) <==> reply.Refused? && PreCommitCertain(reply.status.code)
    ensures !Terminal(Classify(entries, reply)) <==>
              reply.Refused? && reply.status.code in {InvalidArgument, ResourceExhausted, Unimplemented, FailedPrecondition}
    ensures Classify(entries, reply).Ok? <==> Matches(entries, reply)
    ensures Classify(entries, reply).Ok? <==>
              && reply.Granted? && reply.epoch.Some? && |reply.grants| == |entries|
              && forall i :: 0 <= i < |entries| ==> reply.grants[i].key == entries[i].key && reply.grants[i].count == entries[i].count
  {
  }

  /** The validation loop over the grant list. */
  method ValidateGrants(entries: seq<Entry>, grants: seq<Grant>, epoch: Option<nat>) returns (o: Outcome<seq<SeqBlock>>)
    ensures o == Classify(entries, Granted(grants, epoch))
    ensures o.Ok? ==> |o.result| == |entries|
                      && epoch.Some?
                      && forall i :: 0 <= i < |entries| ==> o.result[i] == SeqBlock(grants[i].start, entries[i].count, epoch.value)
  {
    if |grants| != |entries| { return Uncertain; }
    if epoch.None? { return Uncertain; }
    var blocks: seq<SeqBlock> := [];
    for i := 0 to |entries|
      invariant blocks == BlocksOf(grants, epoch.value)[..i]
      invariant forall j :: 0 <= j < i ==> grants[j].key == entries[j].key && grants[j].count == entries[j].count
    {
      if grants[i].key != entries[i].key || grants[i].count != entries[i].count { return Uncertain; }
      blocks := blocks + [SeqBlock(grants[i].start, grants[i].count, epoch.value)];
    }
    assert BlocksOf(grants, epoch.value)[..|entries|] == BlocksOf(grants, epoch.value);
    return Ok(blocks);
  }

  // ------------------------------------------------------------------
  // The retry loop
  // ------------------------------------------------------------------

  /** What an attempt with this budget comes to.  Once the channel is open a request may
      have been sent, so running out of time leaves its fate open. */
  function SeqVerdict(entries: seq<Entry>, a: Attempt<SeqReply>, budget: nat): Outcome<seq<SeqBlock>> {
    if a.timing.connectTook > budget then Err(Rpc(TIMED_OUT))
    else if a.connectError.Some? then Err(a.connectError.value)
    else if a.timing.connectTook + a.timing.rpcTook > budget then Uncertain
    else Classify(entries, a.reply)
  }

  /** A request may have reached the server. */
  predicate Sent(a: Attempt<SeqReply>, budget: nat) { a.timing.connectTook <= budget && a.connectError.None? }

  /** The loop goes on after a possibly sent request only when a reply arrived in time and
      was one a conforming server gives before committing. */
  lemma {:induction false} GoesOnOnlyWhenCertain(entries: seq<Entry>, a: Attempt<SeqReply>, budget: nat)
    requires Sent(a, budget)
    ensures !Terminal(SeqVerdict(entries, a, budget)) <==>
              && a.timing.connectTook + a.timing.rpcTook <= budget
              && a.reply.Refused? && PreCommitCertain(a.reply.status.code)
    ensures SeqVerdict(entries, a, budget).Ok? <==>
              a.timing.connectTook + a.timing.rpcTook <= budget && Matches(entries, a.reply)
  {
    RetriesOnlyWhenCertain(entries, a.reply);
  }

  /** Dial `d` met attempt `a`. */
  ghost predicate SeqMet(entries: seq<Entry>, d: Dial<seq<SeqBlock>>, a: Attempt<SeqReply>) {
    d.outcome == SeqVerdict(entries, a, d.budget) && d.endedAt == d.startedAt + Took(a, d.budget)
  }

  /** One dense attempt at `e` and the loop's bookkeeping for it.  It sleeps only after trouble
      with the connection, and not when the connect itself used up the time. */
  method SeqDialOnce(
    policy: Policy, b: Budget, cap: nat, s: Loop, e: Endpoint, now: nat, budget: nat,
    entries: seq<Entry>, a: Attempt<SeqReply>)
    returns (d: Dial<seq<SeqBlock>>)
    requires NextAttempt(b, now) == Some(budget) && s.wokeAt <= now && s.failed < cap
    requires Pick(s.queue, s.visited) == Some(e)
    ensures Admissible(s, b, cap, d) && d.pass == s.pass && d.endpoint == e
    ensures d.startedAt == now && d.budget == budget && SeqMet(entries, d, a)
    ensures d.wokeAt - d.endedAt == if d.outcome.Err? && !Definite(d.outcome.err) && a.timing.connectTook <= budget
                                    then Nap(b, d.endedAt, policy.baseBackoff, s.failed, a.jitter) else 0
  {
    var end, endedAt := RunPair(now, budget, a.timing, a.connectError.None?);
    var outcome: Outcome<seq<SeqBlock>>;
    match end {
      case ConnectTimedOut => outcome := Err(Rpc(TIMED_OUT));
      case ConnectFailed => outcome := Err(a.connectError.value);
      case RpcTimedOut => outcome := Uncertain;
      case Replied =>
        if a.reply.Granted? {
          outcome := ValidateGrants(entries, a.reply.grants, a.reply.epoch);
        } else {
          outcome := Classify(entries, a.reply);
        }
    }
    var nap := 0;
    if outcome.Err? && ShouldBackoff(outcome.err) && !end.ConnectTimedOut? {
      nap := Nap(b, endedAt, policy.baseBackoff, s.failed, a.jitter);
    }
    d := React(s, e, now, budget, endedAt, nap, outcome);
  }

  /** Dial `i` met attempt `i` of the script, and every dial after the first was given the
      full per-attempt budget. */
  ghost predicate SeqPlayed(entries: seq<Entry>, b: Budget, script: seq<Attempt<SeqReply>>, trace: seq<Dial<seq<SeqBlock>>>) {
    |trace| <= |script|
    && (trace == [] ||
        var n := |trace| - 1;
        && SeqMet(entries, trace[n], script[n])
        && (n > 0 ==> trace[n].budget == b.perAttempt)
        && SeqPlayed(entries, b, script, trace[..n]))
  }

  lemma {:induction false} SeqPlayedAt(entries: seq<Entry>, b: Budget, script: seq<Attempt<SeqReply>>, trace: seq<Dial<seq<SeqBlock>>>, i: nat)
    requires SeqPlayed(entries, b, script, trace) && i < |trace|
    ensures SeqMet(entries, trace[i], script[i]) && (i > 0 ==> trace[i].budget == b.perAttempt)
  {
    if i < |trace| - 1 { SeqPlayedAt(entries, b, script, trace[..|trace| - 1], i); }
  }

  lemma {:induction false} SeqPlayedAppend(entries: seq<Entry>, b: Budget, script: seq<Attempt<SeqReply>>,
                                           trace: seq<Dial<seq<SeqBlock>>>, d: Dial<seq<SeqBlock>>)
    requires SeqPlayed(entries, b, script, trace) && |trace| < |script|
    requires SeqMet(entries, d, script[|trace|]) && (trace != [] ==> d.budget == b.perAttempt)
    ensures SeqPlayed(entries, b, script, trace + [d])
  {
    assert (trace + [d])[..|trace|] == trace;
  }

  ghost predicate SeqRunning(seeds: seq<seq<Endpoint>>, b: Budget, cap: nat, entries: seq<Entry>, script: seq<Attempt<SeqReply>>,
                             trace: seq<Dial<seq<SeqBlock>>>, pass: nat, now: nat, s: Loop) {
    && Open(seeds, b, cap, trace, pass, now) && SeqPlayed(entries, b, script, trace)
    && s == Enter(LoopAfter(seeds, trace), seeds, pass) && s.pass == pass && s.redirects <= MAX_LEADER_REDIRECTS
  }

  /** The loop right after a redirect cap cut the pass short. */
  ghost predicate SeqCut(seeds: seq<seq<Endpoint>>, b: Budget, cap: nat, entries: seq<Entry>, script: seq<Attempt<SeqReply>>,
                         trace: seq<Dial<seq<SeqBlock>>>, pass: nat, now: nat, s: Loop) {
    && Unsettled(seeds, b, cap, trace, now) && SeqPlayed(entries, b, script, trace)
    && CutShort(trace) && s == LoopAfter(seeds, trace) && s.pass == pass
  }

  /** Another attempt could not be given its full budget. */
  predicate TooLate(trace: seq<Dial<seq<SeqBlock>>>, b: Budget, now: nat) {
    trace != [] && NextAttempt(b, now).Some? && NextAttempt(b, now).value < b.perAttempt
  }

  ghost predicate SeqStopped(seeds: seq<seq<Endpoint>>, b: Budget, cap: nat, entries: seq<Entry>, script: seq<Attempt<SeqReply>>,
                             trace: seq<Dial<seq<SeqBlock>>>, pass: nat, now: nat, s: Loop, stop: Stop) {
    match stop
    case Answered =>
      && trace != [] && Terminal(trace[|trace| - 1].outcome) && trace[|trace| - 1].pass == pass
      && Legal(seeds, b, cap, trace) && SeqPlayed(entries, b, script, trace)
    case PassOver =>
      || (SeqRunning(seeds, b, cap, entries, script, trace, pass, now, s) && !Due(s, b, cap, now))
      || (SeqCut(seeds, b, cap, entries, script, trace, pass, now, s) && !OutOfRedirects(trace))
    case CallOver =>
      || (SeqCut(seeds, b, cap, entries, script, trace, pass, now, s) && OutOfRedirects(trace))
      || (SeqRunning(seeds, b, cap, entries, script, trace, pass, now, s) && Due(s, b, cap, now) && TooLate(trace, b, now))
    case RanOut =>
      && SeqRunning(seeds, b, cap, entries, script, trace, pass, now, s)
      && |trace| == |script| && Due(s, b, cap, now) && !TooLate(trace, b, now)
  }

  lemma {:induction false} SeqDialExtends(seeds: seq<seq<Endpoint>>, b: Budget, cap: nat, entries: seq<Entry>, script: seq<Attempt<SeqReply>>,
                                          trace: seq<Dial<seq<SeqBlock>>>, now: nat, s: Loop, d: Dial<seq<SeqBlock>>)
    requires SeqRunning(seeds, b, cap, entries, script, trace, s.pass, now, s) && |trace| < |script|
    requires Admissible(s, b, cap, d) && d.pass == s.pass && SeqMet(entries, d, script[|trace|])
    requires trace != [] ==> d.budget == b.perAttempt
    ensures Legal(seeds, b, cap, trace + [d]) && SeqPlayed(entries, b, script, trace + [d])
    ensures PassMeasure(Record(s, d)) < PassMeasure(s)
    ensures !Terminal(d.outcome) && (d.outcome.Hint? ==> OnHint(s).Continue?) ==>
              SeqRunning(seeds, b, cap, entries, script, trace + [d], s.pass, d.wokeAt, Record(s, d))
    ensures d.outcome.Hint? && !OnHint(s).Continue? ==>
              && SeqCut(seeds, b, cap, entries, script, trace + [d], s.pass, d.wokeAt, Record(s, d))
              && (d.signalled <==> OnHint(s).EndPass?)
  {
    OpenAppend(seeds, b, cap, trace, now, s, d);
    DialUsesUpPass(s, b, cap, d);
    SeqPlayedAppend(entries, b, script, trace, d);
  }

  method SeqDialNext(
    policy: Policy, b: Budget, cap: nat, seeds: seq<seq<Endpoint>>, entries: seq<Entry>, script: seq<Attempt<SeqReply>>,
    trace: seq<Dial<seq<SeqBlock>>>, now: nat, s: Loop, e: Endpoint, budget: nat)
    returns (longer: seq<Dial<seq<SeqBlock>>>, later: nat, s': Loop, hint: Option<Endpoint>, stop: Option<Stop>)
    requires SeqRunning(seeds, b, cap, entries, script, trace, s.pass, now, s) && |trace| < |script|
    requires NextAttempt(b, now) == Some(budget) && (trace != [] ==> budget == b.perAttempt)
    requires s.failed < cap && Pick(s.queue, s.visited) == Some(e)
    ensures OneMore(trace, now, longer, later, s.pass)
    ensures stop.Some? ==> SeqStopped(seeds, b, cap, entries, script, longer, s.pass, later, s', stop.value)
    ensures stop.None? ==> && SeqRunning(seeds, b, cap, entries, script, longer, s.pass, later, s') && PassMeasure(s') < PassMeasure(s)
                           && s'.visited == s.visited + {e} && s'.queue == Requeued(s, hint)
  {
    var d := SeqDialOnce(policy, b, cap, s, e, now, budget, entries, script[|trace|]);
    SeqDialExtends(seeds, b, cap, entries, script, trace, now, s, d);
    longer, later, s', hint := trace + [d], d.wokeAt, Record(s, d), None;
    if Terminal(d.outcome) { return longer, later, s', hint, Some(Answered); }
    if d.outcome.Hint? {
      var next := OnHint(s);
      if next.EndCall? { return longer, later, s', hint, Some(CallOver); }
      if next.EndPass? { return longer, later, s', hint, Some(PassOver); }
      hint := Some(d.outcome.hinted);
    }
    return longer, later, s', hint, None;
  }

  method SeqTurn(
    policy: Policy, b: Budget, cap: nat, seeds: seq<seq<Endpoint>>, entries: seq<Entry>, script: seq<Attempt<SeqReply>>,
    trace: seq<Dial<seq<SeqBlock>>>, now: nat, s: Loop, e: Option<Endpoint>)
    returns (longer: seq<Dial<seq<SeqBlock>>>, later: nat, s': Loop, hint: Option<Endpoint>, stop: Option<Stop>)
    requires SeqRunning(seeds, b, cap, entries, script, trace, s.pass, now, s) && e == Pick(s.queue, s.visited)
    ensures (longer == trace && later == now) || OneMore(trace, now, longer, later, s.pass)
    ensures stop.Some? ==> SeqStopped(seeds, b, cap, entries, script, longer, s.pass, later, s', stop.value)
    ensures stop.None? ==> && SeqRunning(seeds, b, cap, entries, script, longer, s.pass, later, s') && PassMeasure(s') < PassMeasure(s)
                           && e.Some? && s'.visited == s.visited + {e.value} && s'.queue == Requeued(s, hint)
  {
    if e.None? || s.failed >= cap { return trace, now, s, None, Some(PassOver); }
    var granted := NextAttempt(b, now);
    if granted.None? { return trace, now, s, None, Some(PassOver); }
    if trace != [] && granted.value < b.perAttempt { return trace, now, s, None, Some(CallOver); }
    if |trace| == |script| { return trace, now, s, None, Some(RanOut); }
    longer, later, s', hint, stop := SeqDialNext(policy, b, cap, seeds, entries, script, trace, now, s, e.value, granted.value);
  }

  lemma {:induction false} SeqPassBegins(seeds: seq<seq<Endpoint>>, b: Budget, cap: nat, entries: seq<Entry>, script: seq<Attempt<SeqReply>>,
                                         before: seq<Dial<seq<SeqBlock>>>, pass: nat, began: nat, s: Loop)
    requires pass < |seeds| && Open(seeds, b, cap, before, pass, began) && SeqPlayed(entries, b, script, before)
    requires before == [] || LoopAfter(seeds, before).pass < pass
    requires s == Enter(LoopAfter(seeds, before), seeds, pass)
    ensures SeqRunning(seeds, b, cap, entries, script, before, pass, began, s) && s.queue == seeds[pass] && s.visited == {}
  {
  }

  method RunSeqPass(
    policy: Policy, b: Budget, cap: nat, seeds: seq<seq<Endpoint>>, pass: nat,
    entries: seq<Entry>, script: seq<Attempt<SeqReply>>, before: seq<Dial<seq<SeqBlock>>>, began: nat)
    returns (trace: seq<Dial<seq<SeqBlock>>>, now: nat, s: Loop, stop: Stop)
    requires pass < |seeds| && Open(seeds, b, cap, before, pass, began) && SeqPlayed(entries, b, script, before)
    requires before == [] || LoopAfter(seeds, before).pass < pass
    ensures SeqStopped(seeds, b, cap, entries, script, trace, pass, now, s, stop)
    ensures InStep(before, trace, pass, began) && now == StandsAt(before, trace, began)
  {
    trace, now := before, began;
    var worklist := new Worklist(seeds[pass]);
    s := Enter(LoopAfter(seeds, trace), seeds, pass);
    SeqPassBegins(seeds, b, cap, entries, script, before, pass, began, s);
    while true
      invariant SeqRunning(seeds, b, cap, entries, script, trace, pass, now, s)
      invariant InStep(before, trace, pass, began) && now == StandsAt(before, trace, began)
      invariant s.queue == worklist.queue && s.visited == worklist.visited
      decreases PassMeasure(s)
    {
      var e := worklist.Next();
      var hint, over;
      ghost var shorter := trace;
      trace, now, s, hint, over := SeqTurn(policy, b, cap, seeds, entries, script, trace, now, s, e);
      if trace != shorter { TurnStepsOn(before, shorter, trace, pass, began, now); }
      if over.Some? { return trace, now, s, over.value; }
      if hint.Some? { worklist.RedirectTo(hint.value); }
    }
  }

  lemma {:induction false} SeqStoppedShape(seeds: seq<seq<Endpoint>>, b: Budget, cap: nat, entries: seq<Entry>, script: seq<Attempt<SeqReply>>,
                                           trace: seq<Dial<seq<SeqBlock>>>, pass: nat, now: nat, s: Loop, stop: Stop)
    requires SeqStopped(seeds, b, cap, entries, script, trace, pass, now, s, stop) && (pass > 0 ==> trace != [])
    ensures Legal(seeds, b, cap, trace) && SeqPlayed(entries, b, script, trace)
    ensures stop.Answered? <==> trace != [] && Terminal(trace[|trace| - 1].outcome)
    ensures PassesFit(trace, pass + 1)
    ensures !stop.Answered? ==> LoopAfter(seeds, trace).pass <= pass && s == Enter(LoopAfter(seeds, trace), seeds, pass)
    ensures stop.PassOver? ==> !OutOfRedirects(trace) && (!CutShort(trace) ==> !Due(s, b, cap, now))
    ensures stop.CallOver? ==> OutOfRedirects(trace) || (Due(s, b, cap, now) && TooLate(trace, b, now))
    ensures stop.RanOut? ==> |trace| == |script| && Due(s, b, cap, now) && !TooLate(trace, b, now)
  {
    if trace != [] { assert LoopAfter(seeds, trace).pass == trace[|trace| - 1].pass; }
  }

  lemma {:induction false} NextSeqPassOpens(seeds: seq<seq<Endpoint>>, b: Budget, cap: nat, entries: seq<Entry>, script: seq<Attempt<SeqReply>>,
                                            trace: seq<Dial<seq<SeqBlock>>>, pass: nat, now: nat, s: Loop, later: nat)
    requires SeqStopped(seeds, b, cap, entries, script, trace, pass, now, s, PassOver) && s.sawSignal
    requires NextAttempt(b, now).Some? && now <= later <= b.deadline
    ensures Open(seeds, b, cap, trace, pass + 1, later) && LoopAfter(seeds, trace).pass <= pass
  {
  }

  /** Failing was right: another attempt would have been cut short, or the loop's own
      conditions for giving up hold. */
  predicate SeqGaveUp(trace: seq<Dial<seq<SeqBlock>>>, s: Loop, b: Budget, cap: nat, now: nat) {
    (Due(s, b, cap, now) && TooLate(trace, b, now)) || GaveUp(trace, s, b, cap, now)
  }

  /** How a finished dense call relates to its trace: success is the last dial's answer,
      uncertainty exactly an ambiguous last dial, and any other failure is surfaced from
      what was recorded and was due; at most one pass starts after the last dial. */
  ghost predicate SeqFinished(seeds: seq<seq<Endpoint>>, b: Budget, cap: nat, entries: seq<Entry>, script: seq<Attempt<SeqReply>>,
                              ending: Ending<seq<SeqBlock>>, trace: seq<Dial<seq<SeqBlock>>>, pass: nat, now: nat, s: Loop) {
    && Legal(seeds, b, cap, trace) && SeqPlayed(entries, b, script, trace) && PassesFit(trace, pass + 1)
    && (ending.Served? <==> trace != [] && trace[|trace| - 1].outcome.Ok?)
    && (ending.Served? ==> trace[|trace| - 1].outcome == Ok(ending.result))
    && (ending == Failed(SeqUncertain) <==> trace != [] && trace[|trace| - 1].outcome.Uncertain?)
    && (!ending.Served? && ending != Failed(SeqUncertain) ==>
          LoopAfter(seeds, trace).pass <= pass && s == Enter(LoopAfter(seeds, trace), seeds, pass))
    && (ending.Failed? && ending.err != SeqUncertain ==> ending.err == Surfaced(seeds, trace) && SeqGaveUp(trace, s, b, cap, now))
    && (ending.OutOfScript? ==>
          || (|trace| == |script| && Due(s, b, cap, now) && !TooLate(trace, b, now))
          || (pass + 1 == |seeds| && GoesOnIn(LoopAfter(seeds, trace), cap, trace, pass + 1)))
  }

  /** The call at the start of a pass. */
  ghost predicate SeqUnderway(seeds: seq<seq<Endpoint>>, b: Budget, cap: nat, entries: seq<Entry>, script: seq<Attempt<SeqReply>>,
                              trace: seq<Dial<seq<SeqBlock>>>, pass: nat, now: nat) {
    && pass < |seeds| && Open(seeds, b, cap, trace, pass, now) && SeqPlayed(entries, b, script, trace) && PassesFit(trace, pass + 1)
    && if trace == [] then pass == 0 else LoopAfter(seeds, trace).pass < pass
  }

  method SeqPassAndNap(
    policy: Policy, b: Budget, cap: nat, seeds: seq<seq<Endpoint>>, pass: nat,
    entries: seq<Entry>, script: seq<Attempt<SeqReply>>, jitter: nat, before: seq<Dial<seq<SeqBlock>>>, began: nat)
    returns (ending: Option<Ending<seq<SeqBlock>>>, trace: seq<Dial<seq<SeqBlock>>>, now: nat, s: Loop)
    requires SeqUnderway(seeds, b, cap, entries, script, before, pass, began)
    ensures ending.Some? ==> SeqFinished(seeds, b, cap, entries, script, ending.value, trace, pass, now, s)
    ensures ending.None? ==>
              && (pass + 1 < |seeds| ==> SeqUnderway(seeds, b, cap, entries, script, trace, pass + 1, now))
              && (pass + 1 == |seeds| ==> SeqFinished(seeds, b, cap, entries, script, OutOfScript, trace, pass, now, s))
    ensures InStep(before, trace, pass, began)
    ensures ending.Some? ==> now == StandsAt(before, trace, began)
    ensures ending.None? ==> && |trace| > |before|
                             && var woke := trace[|trace| - 1].wokeAt;
                                now == woke + Nap(b, woke, policy.baseBackoff, pass, jitter)
  {
    var stop;
    trace, now, s, stop := RunSeqPass(policy, b, cap, seeds, pass, entries, script, before, began);
    SeqStoppedShape(seeds, b, cap, entries, script, trace, pass, now, s, stop);
    if stop.Answered? {
      if trace[|trace| - 1].outcome.Uncertain? { return Some(Failed(SeqUncertain)), trace, now, s; }
      return Some(Served(trace[|trace| - 1].outcome.result)), trace, now, s;
    }
    if stop.RanOut? { return Some(OutOfScript), trace, now, s; }
    if stop.CallOver? || !s.sawSignal || NextAttempt(b, now).None? {
      SurfacedErrorIsHonest(seeds, b, cap, trace);
      return Some(Failed(Surfaced(seeds, trace))), trace, now, s;
    }
    var nap := Nap(b, now, policy.baseBackoff, pass, jitter);
    NextSeqPassOpens(seeds, b, cap, entries, script, trace, pass, now, s, now + nap);
    return None, trace, now + nap, s;
  }

  /** The dense-sequence call. */
  method IssueSeqBatchRpc(
    policy: Policy, startedAt: nat, seeds: seq<seq<Endpoint>>, entries: seq<Entry>,
    script: seq<Attempt<SeqReply>>, naps: seq<nat>)
    returns (ending: Ending<seq<SeqBlock>>, trace: seq<Dial<seq<SeqBlock>>>, pass: nat, endedAt: nat, s: Loop)
    requires |naps| >= |seeds| > 0
    ensures SeqFinished(seeds, Start(policy, startedAt), AttemptCap(policy, seeds), entries, script, ending, trace, pass, endedAt, s)
    ensures Paced(policy, startedAt, naps, trace)
    ensures forall i :: 0 <= i < |trace| ==> WithinPolicy(policy, startedAt, trace[i])
    ensures forall i :: 0 < i < |trace| ==> trace[i].budget == policy.perAttempt
  {
    var b := Start(policy, startedAt);
    var cap := AttemptCap(policy, seeds);
    trace, endedAt, pass := [], startedAt, 0;
    while true
      invariant SeqUnderway(seeds, b, cap, entries, script, trace, pass, endedAt) && OnTimeFor(policy, startedAt, naps, trace, pass, endedAt)
      decreases |seeds| - pass
    {
      var over;
      ghost var before, began := trace, endedAt;
      over, trace, endedAt, s := SeqPassAndNap(policy, b, cap, seeds, pass, entries, script, naps[pass], trace, endedAt);
      PassIsPaced(policy, startedAt, naps, before, trace, pass, began);
      if over.Some? { ending := over.value; break; }
      if pass + 1 == |seeds| { ending := OutOfScript; break; }
      pass := pass + 1;
    }
    AllWithinPolicy(policy, startedAt, seeds, cap, trace);
    forall i | 0 < i < |trace| ensures trace[i].budget == policy.perAttempt { SeqPlayedAt(entries, b, script, trace, i); }
  }

  /** Within one call every request but the last that may have been sent came back with a
      reply a conforming server gives before committing, so only the last can have committed. */
  lemma {:induction false} OnlyLastMayCommit(seeds: seq<seq<Endpoint>>, b: Budget, cap: nat, entries: seq<Entry>, script: seq<Attempt<SeqReply>>,
                                             trace: seq<Dial<seq<SeqBlock>>>, i: nat)
    requires Legal(seeds, b, cap, trace) && SeqPlayed(entries, b, script, trace)
    requires i + 1 < |trace| && Sent(script[i], trace[i].budget)
    ensures script[i].reply.Refused? && PreCommitCertain(script[i].reply.status.code)
    ensures script[i].timing.connectTook + script[i].timing.rpcTook <= trace[i].budget
  {
    NothingFollowsTerminal(seeds, b, cap, trace, i);
    SeqPlayedAt(entries, b, script, trace, i);
    GoesOnOnlyWhenCertain(entries, script[i], trace[i].budget);
  }

  /** Reading a finished call: success means the last reply matched the batch position by
      position; an error other than the uncertain one means that every request that may
      have been sent, the last included, was refused before any commit. */
  lemma {:induction false} EndingsAreHonest(seeds: seq<seq<Endpoint>>, b: Budget, cap: nat, entries: seq<Entry>, script: seq<Attempt<SeqReply>>,
                                            ending: Ending<seq<SeqBlock>>, trace: seq<Dial<seq<SeqBlock>>>, pass: nat, now: nat, s: Loop, i: nat)
    requires SeqFinished(seeds, b, cap, entries, script, ending, trace, pass, now, s) && i < |trace| && Sent(script[i], trace[i].budget)
    ensures ending.Served? && i == |trace| - 1 ==>
              && Matches(entries, script[i].reply) && |ending.result| == |entries|
              && forall p :: 0 <= p < |entries| ==>
                   ending.result[p] == SeqBlock(script[i].reply.grants[p].start, entries[p].count, script[i].reply.epoch.value)
    ensures ending.Failed? && ending.err != SeqUncertain ==> script[i].reply.Refused? && PreCommitCertain(script[i].reply.status.code)
  {
    SeqPlayedAt(entries, b, script, trace, i);
    GoesOnOnlyWhenCertain(entries, script[i], trace[i].budget);
    if i + 1 < |trace| { OnlyLastMayCommit(seeds, b, cap, entries, script, trace, i); }
  }

  /** A reply arrived in time. */
  predicate Timely(a: Attempt<SeqReply>, budget: nat) {
    a.connectError.None? && a.timing.connectTook + a.timing.rpcTook <= budget
  }

  /** Whose word a NOT_LEADER reply gives: a trailer was there and named a usable endpoint. */
  predicate NamesLeader(reply: SeqReply) { reply.Refused? && !reply.status.hint.Absent? && reply.hint.Some? }

  /** What a NOT_LEADER reply leads to.  A seated hint costs nothing, leaves no error and, below
      the redirect caps, is dialed next unless the pass has dialed it; a hint the cache would
      not seat is a sign of an election, kept without a charge; a bare or unusable one is
      charged as a failure under its own status. */
  lemma {:induction false} NotLeaderIsDispatched(seeds: seq<seq<Endpoint>>, b: Budget, cap: nat, entries: seq<Entry>, script: seq<Attempt<SeqReply>>,
                                                 trace: seq<Dial<seq<SeqBlock>>>, i: nat)
    requires Legal(seeds, b, cap, trace) && SeqPlayed(entries, b, script, trace)
    requires i < |trace| && Timely(script[i], trace[i].budget)
    requires script[i].reply.Refused? && script[i].reply.status.code == FailedPrecondition
    ensures var reply, d := script[i].reply, trace[i];
            && (NamesLeader(reply) ==> Failures(trace[..i + 1]) == Failures(trace[..i]))
            && (NamesLeader(reply) && reply.seated && BelowCaps(trace, i) ==>
                  && d.recorded.None? && !d.signalled
                  && (i + 1 < |trace| && reply.hint.value !in EndpointsOf(InPass(trace[..i + 1], d.pass)) ==>
                        trace[i + 1].pass == d.pass && trace[i + 1].endpoint == reply.hint.value))
            && (NamesLeader(reply) && !reply.seated ==> d.signalled && d.recorded == Some(Rpc(reply.status)))
            && (!NamesLeader(reply) ==>
                  !d.signalled && d.recorded == Some(Rpc(reply.status)) && Failures(trace[..i + 1]) == Failures(trace[..i]) + 1)
  {
    SeqPlayedAt(entries, b, script, trace, i);
    OutcomeIsBooked(seeds, b, cap, trace, i);
    if i + 1 < |trace| && trace[i].outcome.Hint? { HintIsObeyed(seeds, b, cap, trace, i); }
  }

  /** Whatever else happens before anything can have been committed is charged as a failure
      under its own error: a connect that failed or took too long, and the other refusals a
      server gives before committing. */
  lemma {:induction false} FailureIsCharged(seeds: seq<seq<Endpoint>>, b: Budget, cap: nat, entries: seq<Entry>, script: seq<Attempt<SeqReply>>,
                                            trace: seq<Dial<seq<SeqBlock>>>, i: nat)
    requires Legal(seeds, b, cap, trace) && SeqPlayed(entries, b, script, trace) && i < |trace|
    ensures var a, d := script[i], trace[i];
            var charged := !d.signalled && Failures(trace[..i + 1]) == Failures(trace[..i]) + 1;
            && (a.timing.connectTook > d.budget ==> charged && d.recorded == Some(Rpc(TIMED_OUT)))
            && (a.timing.connectTook <= d.budget && a.connectError.Some? ==> charged && d.recorded == a.connectError)
            && (Timely(a, d.budget) && a.reply.Refused?
                && a.reply.status.code in {InvalidArgument, ResourceExhausted, Unimplemented} ==>
                  charged && d.recorded == Some(Rpc(a.reply.status)))
  {
    SeqPlayedAt(entries, b, script, trace, i);
    OutcomeIsBooked(seeds, b, cap, trace, i);
  }

  /** A failed dense call, read off its trace: no full attempt fitted before the deadline, or
      it met one hint too many, or nobody in its last pass signalled an election and either
      the failed-attempt cap was reached or the pass had dialed its whole seed and every hint
      it followed. */
  lemma {:induction false} SeqFailureWasDue(seeds: seq<seq<Endpoint>>, b: Budget, cap: nat, entries: seq<Entry>, script: seq<Attempt<SeqReply>>,
                                            ending: Ending<seq<SeqBlock>>, trace: seq<Dial<seq<SeqBlock>>>, pass: nat, now: nat, s: Loop)
    requires SeqFinished(seeds, b, cap, entries, script, ending, trace, pass, now, s)
    requires ending.Failed? && ending.err != SeqUncertain
    ensures var mine := InPass(trace, pass);
            || now >= b.deadline || (trace != [] && now + b.perAttempt > b.deadline)
            || (trace != [] && trace[|trace| - 1].outcome.Hint? && Pivots(trace[..|trace| - 1]) == MAX_TOTAL_LEADER_REDIRECTS)
            || (!SomeSignal(mine) && (Failures(trace) >= cap || Members(SeedOf(seeds, pass)) + HintsOf(mine) <= EndpointsOf(mine)))
  {
    if !TooLate(trace, b, now) { GivingUpMeans(seeds, b, cap, trace, pass, s, now); }
  }
}
