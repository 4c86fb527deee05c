/** The dense retry loop as one participant of the dense protocol: whatever a finished call
    did, the protocol's steps for that call do the same. */
module DenseCalls {
  import opened Wrappers
  import opened ClientTypes
  import opened Budgets
  import opened Retry
  import opened SeqRetry
  import opened Dense

  /** Call `c` of `t` is in phase `p`, and nothing else of `s` moved but the wire. */
  ghost predicate OnlyPhase(s: System, t: System, c: nat, p: Phase) {
    c < |s.calls| && t.calls == s.calls[c := s.calls[c].(phase := p)]
  }

  /** The server side of a settling reply: a success reports what a commit now would reserve. */
  ghost predicate WouldGrant(s: System, entries: seq<Entry>, reply: SeqReply) {
    Matches(entries, reply) ==>
      && !Overflows(s.counters, entries)
      && forall i :: 0 <= i < |entries| ==> reply.grants[i].start == Counter(s.counters, entries[i].key)
  }

  lemma {:induction false} SendIt(acts: seq<Action>, s: System, c: nat, entries: seq<Entry>) returns (acts': seq<Action>, t: System)
    requires Exec(acts) == Some(s) && c < |s.calls| && s.calls[c] == CallState(entries, Ready)
    ensures Exec(acts') == Some(t) && OnlyPhase(s, t, c, Waiting(|s.rpcs|))
    ensures t.rpcs == s.rpcs + [RpcState(c, InFlight)] && t.counters == s.counters && t.log == s.log
  {
    Extend(acts, Send(c), s);
    acts', t := acts + [Send(c)], Apply(s, Send(c));
  }

  /** A dial the loop goes on after leaves the call ready and nothing committed. */
  lemma {:induction false} DialLeavesReady(acts: seq<Action>, s: System, c: nat, entries: seq<Entry>, a: Attempt<SeqReply>, budget: nat)
    returns (acts': seq<Action>, t: System)
    requires Exec(acts) == Some(s) && c < |s.calls| && s.calls[c] == CallState(entries, Ready)
    requires !Terminal(SeqVerdict(entries, a, budget))
    ensures Exec(acts') == Some(t) && t.calls == s.calls && t.counters == s.counters && t.log == s.log
  {
    if !Sent(a, budget) { return acts, s; }
    GoesOnOnlyWhenCertain(entries, a, budget);
    RetriesOnlyWhenCertain(entries, a.reply);
    var r := |s.rpcs|;
    acts', t := SendIt(acts, s, c, entries);
    Extend(acts', RejectRpc(r), t);
    acts', t := acts' + [RejectRpc(r)], Apply(t, RejectRpc(r));
    Extend(acts', Deliver(c, a.reply), t);
    acts', t := acts' + [Deliver(c, a.reply)], Apply(t, Deliver(c, a.reply));
    assert t.calls == s.calls;
  }

  lemma {:induction false} GrantSettles(acts: seq<Action>, s: System, c: nat, entries: seq<Entry>, reply: SeqReply) returns (acts': seq<Action>, t: System)
    requires Exec(acts) == Some(s) && c < |s.calls| && s.calls[c] == CallState(entries, Ready)
    requires Matches(entries, reply) && WouldGrant(s, entries, reply)
    ensures Exec(acts') == Some(t) && Classify(entries, reply).Ok?
    ensures OnlyPhase(s, t, c, ReturnedBlocks(|s.rpcs|, Classify(entries, reply).result))
  {
    var r := |s.rpcs|;
    acts', t := SendIt(acts, s, c, entries);
    Extend(acts', CommitRpc(r), t);
    acts', t := acts' + [CommitRpc(r)], Apply(t, CommitRpc(r));
    assert t.rpcs[r].status == Committed(StartsOf(s.counters, entries));
    Extend(acts', Deliver(c, reply), t);
    acts', t := acts' + [Deliver(c, reply)], Apply(t, Deliver(c, reply));
  }

  lemma {:induction false} AmbiguitySettles(acts: seq<Action>, s: System, c: nat, entries: seq<Entry>, a: Attempt<SeqReply>, budget: nat)
    returns (acts': seq<Action>, t: System)
    requires Exec(acts) == Some(s) && c < |s.calls| && s.calls[c] == CallState(entries, Ready)
    requires SeqVerdict(entries, a, budget).Uncertain?
    ensures Exec(acts') == Some(t) && OnlyPhase(s, t, c, ReturnedUncertain(|s.rpcs|))
  {
    RetriesOnlyWhenCertain(entries, a.reply);
    acts', t := SendIt(acts, s, c, entries);
    var last := if a.timing.connectTook + a.timing.rpcTook > budget then TimeOut(c) else Deliver(c, a.reply);
    Extend(acts', last, t);
    acts', t := acts' + [last], Apply(t, last);
  }

  /** Attempts the loop goes on after leave the call ready, however many. */
  lemma {:induction false} AttemptsLeaveReady(entries: seq<Entry>, script: seq<Attempt<SeqReply>>, budgets: seq<nat>, n: nat,
                                              acts: seq<Action>, s: System, c: nat)
    returns (acts': seq<Action>, t: System)
    requires n <= |script| && n <= |budgets| && forall i :: 0 <= i < n ==> !Terminal(SeqVerdict(entries, script[i], budgets[i]))
    requires Exec(acts) == Some(s) && c < |s.calls| && s.calls[c] == CallState(entries, Ready)
    ensures Exec(acts') == Some(t) && t.calls == s.calls && t.counters == s.counters
    decreases n
  {
    acts', t := acts, s;
    if n > 0 {
      acts', t := AttemptsLeaveReady(entries, script, budgets, n - 1, acts, s, c);
      acts', t := DialLeavesReady(acts', t, c, entries, script[n - 1], budgets[n - 1]);
    }
  }

  lemma {:induction false} DialGoesOn(seeds: seq<seq<Endpoint>>, b: Budget, cap: nat, entries: seq<Entry>, script: seq<Attempt<SeqReply>>,
                                      trace: seq<Dial<seq<SeqBlock>>>, i: nat)
    requires Legal(seeds, b, cap, trace) && SeqPlayed(entries, b, script, trace) && i < |trace|
    requires i == |trace| - 1 ==> !Terminal(trace[i].outcome)
    ensures !Terminal(SeqVerdict(entries, script[i], trace[i].budget))
  {
    SeqPlayedAt(entries, b, script, trace, i);
    if i + 1 < |trace| { NothingFollowsTerminal(seeds, b, cap, trace, i); }
  }

  /** All dials but a settling last one leave the call ready. */
  lemma {:induction false} DialsLeaveReady(seeds: seq<seq<Endpoint>>, b: Budget, cap: nat, entries: seq<Entry>, script: seq<Attempt<SeqReply>>,
                                           trace: seq<Dial<seq<SeqBlock>>>, n: nat, acts: seq<Action>, s: System, c: nat)
    returns (acts': seq<Action>, t: System)
    requires Legal(seeds, b, cap, trace) && SeqPlayed(entries, b, script, trace) && n <= |trace|
    requires n == |trace| && trace != [] ==> !Terminal(trace[n - 1].outcome)
    requires Exec(acts) == Some(s) && c < |s.calls| && s.calls[c] == CallState(entries, Ready)
    ensures Exec(acts') == Some(t) && t.calls == s.calls && t.counters == s.counters
  {
    var budgets := seq(|trace|, i requires 0 <= i < |trace| => trace[i].budget);
    forall i | 0 <= i < n ensures !Terminal(SeqVerdict(entries, script[i], budgets[i])) {
      DialGoesOn(seeds, b, cap, entries, script, trace, i);
    }
    acts', t := AttemptsLeaveReady(entries, script, budgets, n, acts, s, c);
  }

  /** The phase a caller's ending corresponds to. */
  ghost predicate Corresponds(ending: Ending<seq<SeqBlock>>, p: Phase) {
    match ending
    case Served(blocks) => p.ReturnedBlocks? && p.blocks == blocks
    case Failed(err) => if err == SeqUncertain then p.ReturnedUncertain? else p.ReturnedError?
    case OutOfScript => p.Ready?
  }

  /** A finished call of the verified loop is a run of the protocol for that call: from any
      reachable state, against a server whose success reports what it would reserve there,
      its requests, replies and timeouts are enabled steps that end in the phase its caller
      was told, and no other call is touched. */
  lemma {:induction false} FinishedCallIsARun(seeds: seq<seq<Endpoint>>, b: Budget, cap: nat, entries: seq<Entry>, script: seq<Attempt<SeqReply>>,
                                              ending: Ending<seq<SeqBlock>>, trace: seq<Dial<seq<SeqBlock>>>, pass: nat, now: nat, loop: Loop,
                                              acts: seq<Action>, s: System, c: nat) returns (acts': seq<Action>, t: System)
    requires SeqFinished(seeds, b, cap, entries, script, ending, trace, pass, now, loop)
    requires Exec(acts) == Some(s) && c < |s.calls| && s.calls[c] == CallState(entries, Ready)
    requires trace != [] ==> WouldGrant(s, entries, script[|trace| - 1].reply)
    ensures Exec(acts') == Some(t)
    ensures |t.calls| == |s.calls| && Corresponds(ending, t.calls[c].phase) && OnlyPhase(s, t, c, t.calls[c].phase)
  {
    var n := |trace| - 1;
    if trace == [] || !Terminal(trace[n].outcome) {
      acts', t := DialsLeaveReady(seeds, b, cap, entries, script, trace, |trace|, acts, s, c);
      assert s.calls == s.calls[c := s.calls[c].(phase := Ready)];
      if ending.Failed? {
        Extend(acts', GiveUp(c), t);
        acts', t := acts' + [GiveUp(c)], Apply(t, GiveUp(c));
      }
    } else {
      acts', t := DialsLeaveReady(seeds, b, cap, entries, script, trace, n, acts, s, c);
      SeqPlayedAt(entries, b, script, trace, n);
      RetriesOnlyWhenCertain(entries, script[n].reply);
      if trace[n].outcome.Ok? {
        acts', t := GrantSettles(acts', t, c, entries, script[n].reply);
      } else {
        acts', t := AmbiguitySettles(acts', t, c, entries, script[n], trace[n].budget);
      }
    }
  }
}
