# tsoracle, modelled and proved in Dafny

tsoracle is a distributed timestamp oracle.  A leader hands out packed 64-bit timestamps
from a durable window and dense per-key sequence numbers from durable counters; clients
coalesce requests, follow leader hints and retry; a stress supervisor watches the stream for
violations.  This project models that logic and proves what it promises, over every input,
every run and every reachable state of the models.

`dafny verify dfyconfig.toml` checks everything.

| file | what it models |
|---|---|
| `Wrappers.dfy`, `Basics.dfy` | values that may be missing, calls that may fail; small facts about numbers and collections |
| `Timestamps.dfy` | the packed layout, the GetTs reply decoder |
| `Allocator.dfy` | the window allocator of one node |
| `HighWater.dfy` | the advance-to-at-least register and its guard |
| `Failover.dfy`, `FailoverRuns.dfy` | any number of nodes, elections, fences, window extensions, crashes; persists that are proposed, commit and return in separate steps under three driver mechanisms; what runs guarantee and exactly when they do not |
| `ClientTypes.dfy`, `Budget.dfy`, `Worklist.dfy` | error vocabulary, deadlines, the worklist |
| `Retry.dfy` | what both retry loops share, over whole traces of dials: who is dialed next, what each outcome costs and leads to, when a pass and a call may end, which error is told |
| `RetryLoop.dfy` | the timestamp call |
| `SeqRetry.dfy` | the dense-sequence retry loop and its classification of replies |
| `Dense.dfy`, `DenseCalls.dfy` | many dense calls against counters that may commit late; the server's batch handler; the verified retry loop as one participant |
| `LeaderCache.dfy`, `ChannelPool.dfy`, `Attempt.dfy` | the cached leader, the channel map, the dial order, one attempt over both |
| `Chunking.dfy`, `Coalescer.dfy`, `CoalescerRuns.dfy`, `CoalescerReplies.dfy`, `CoalescerProgress.dfy`, `CoalescingDriver.dfy` | the coalescing driver: chunking and delivery, its state machine, whole-run guarantees, why each waiter hears what it hears, progress, the in-place methods |
| `Supervision.dfy`, `SupervisionReports.dfy`, `Supervisor.dfy` | the stress checks over a whole event history, exactly which event adds which violation, and the online supervisor that must agree with them |

Time is a natural number (an integer in the supervisor), each lock-held section is one step,
and what peers answer, how long they take, random jitter and the cursor seed are inputs.
A retry call is given a finite script of attempts and of pass seeds; a call that outlives its
script ends as `OutOfScript`, and every statement about traces holds for all scripts.  Every
lemma switches the verifier's own induction off, so each induction is written out where it
is used.

## Where the code does not do what its documentation says

* `docs/the-allocator.md:33-43` promises that a new leader issues only above its
  predecessors, of every driver.  That holds, and no timestamp repeats, in every run that is
  fenced: whatever was acknowledged to an epoch had been visible to each load of a later epoch
  (`FailoverRuns.LaterEpochIsAbove`, `FailoverRuns.NoTimestampIssuedTwice`).  A driver that
  compares the epoch where the write commits, and returns the value of that moment, has only
  such runs (`FailoverRuns.CommitCheckRunsAreFenced`).
* Neither mechanism that `crates/tsoracle-consensus/src/driver.rs:104-121` allows is that driver.
  Comparing the epoch before proposing, as `crates/tsoracle-driver-paxos/src/driver.rs:210-237`
  does, lets the persist return under a successor with the successor's high-water, and a
  timestamp is issued twice (`FailoverRuns.PreCheckReissues`).  Ignoring the epoch and requiring
  leadership, as `crates/tsoracle-driver-openraft/src/driver.rs:111-128` does, lets a node that
  lost and regained leadership do the same (`FailoverRuns.ForwardingReissues`).
* Under any driver, a reachable state can be driven to repeat a timestamp by nodes that only
  apply what was acknowledged and serve, exactly when two claims, issued or still open, share
  a timestamp (`FailoverRuns.ReissueIffContested`); fenced runs never reach such a state, and a
  late acknowledgement to a node that still serves, below an open later window, does
  (`FailoverRuns.UnfencedAckContests`).
* Issue order in real time can regress with every driver while a superseded leader has not
  noticed (`FailoverRuns.StaleLeaderRegresses`); in a fenced run it is increasing exactly when
  no superseded leader serves again (`FailoverRuns.IssueOrderIffEpochOrder`).
* A failed call that did reach servers can still report `NoReachableEndpoints`: it does so
  exactly when every dial was a followed hint (`Retry.SurfacedErrorIsHonest`), for instance
  when a lone peer names itself (`RetryLoop.AskSelfHinting`).
* The rotation of the dial order is fair exactly when the 64-bit cursor does not wrap during a
  round or the number of endpoints divides 2^64 (`ChannelPools.FairIffWrapsEvenly`).
* The supervisor's cross-client real-time check looks at one earlier sample.  Its reports are
  sound, a real inversion can be missed (`SupervisionReports.InversionCanBeMissed`), and
  `SupervisionReports.RealtimeReportedIff` says of every inversion exactly when it is reported.
* The supervisor means to excuse an incident when an applied fault overlaps it.  It does so
  exactly when they share an instant, except where one of the two spans is empty: a fault of
  no length inside the attempts excuses them too (`SupervisionReports.ExplainsIffShared`,
  `SupervisionReports.EmptyFaultExplains`).

## Model

| member | source | states |
|---|---|---|
| `Timestamps.PackIsOrderEmbedding` | crates/tsoracle-core/src/timestamp.rs:27-80 | packing is lossless, fits 64 bits, and orders like the (physical, logical) pair |
| `Timestamps.PacksIffFits` | crates/tsoracle-core/src/timestamp.rs:27-80 | a pair packs exactly when it fits 46 and 18 bits, and is refused for its first field that does not |
| `Timestamps.UnpackThenPack` | crates/tsoracle-core/src/timestamp.rs:27-80 | every 64-bit value is the packing of its own parts |
| `Timestamps.DecodeGetTsResponse` | crates/tsoracle-client/src/response.rs:86-132 | a reply is accepted exactly when its count is the one requested and every timestamp of its range packs, and what is accepted is the range it names |
| `Timestamps.IterateIsConsecutive` | crates/tsoracle-client/src/response.rs:79-84 | an accepted range yields exactly `count` consecutive packed values, each of which packs |
| `Allocators.GrantMovesCursor` | crates/tsoracle-core/src/allocator.rs:399-495 | a grant lies between the old cursor and the committed ceiling, moves the cursor to its end, and a refusal changes nothing |
| `Allocators.GrantIsEarliest` | crates/tsoracle-core/src/allocator.rs:399-447 | a grant starts at the least value any legal grant of that size could start at |
| `Allocators.GrantedIffRoom` | crates/tsoracle-core/src/allocator.rs:399-447 | a request is granted exactly when some legal start fits the committed window, and is told the window is exhausted exactly when one would fit only a larger window |
| `Allocators.ExtensionMakesRoom` | crates/tsoracle-core/src/allocator.rs:533-640 | a prepared extension, once persisted and committed, makes the refused grant succeed |
| `Allocators.Allocator.BecomeLeader` | crates/tsoracle-core/src/allocator.rs:323-342 | seeding succeeds exactly when floor and ceiling are in order and in range, opens the window at the floor, and otherwise leaves the state alone |
| `Allocators.Allocator.StepDown` | crates/tsoracle-core/src/allocator.rs:344-346 | the state is cleared |
| `Allocators.Allocator.TryGrant` | crates/tsoracle-core/src/allocator.rs:465-496 | the in-place grant is the specified one, never starts below the cursor, and refuses a bad count before it looks at leadership |
| `Allocators.Allocator.WouldGrant` | crates/tsoracle-core/src/allocator.rs:498-531 | the peek predicts the grant in both directions |
| `Allocators.Allocator.TryPrepareWindowExtension` | crates/tsoracle-core/src/allocator.rs:533-565 | the target is the look-ahead past the later of the ceiling and the clock, refused exactly when it leaves 46 bits, as an overflow exactly when it leaves 64 |
| `Allocators.Allocator.TryCommitWindowExtension` | crates/tsoracle-core/src/allocator.rs:604-638 | applied exactly for the leader's own epoch and a higher value, which becomes the ceiling; ignored without effect, for the stated reason, otherwise |
| `HighWater.ApplyAllIsMaximum` | crates/tsoracle-consensus/src/advance.rs:48-61 | after any log the register is the maximum of its start and the log |
| `HighWater.ReplicasAgree` | crates/tsoracle-consensus/src/advance.rs:48-61 | replicas that saw the same advances agree, whatever the order and the duplicates |
| `HighWater.GuardIsExact` | crates/tsoracle-consensus/src/advance.rs:88-93 | the guard refuses exactly the values no timestamp can carry |
| `HighWater.GuardedLogStaysInRange` | crates/tsoracle-consensus/src/advance.rs:88-93 | guarded proposals never push the register past the 46-bit cap |
| `Allocators.WindowIsServable` | crates/tsoracle-core/src/allocator.rs:399-496 | every value between cursor and ceiling is covered by the next grant for some clock reading and request size |
| `Failover.RunKeepsInv` | crates/tsoracle-server/src/fence.rs:116-420 | under each driver mechanism, every reachable state has its windows and grants between a load and an acknowledgement of their own epoch, and the high-water covers every load and acknowledgement |
| `FailoverRuns.LoadSeesEarlierAcks` | crates/tsoracle-consensus/src/driver.rs:87-103 | under each driver mechanism the high-water never falls, and a load is at least every value an earlier persist returned, late and repeated commits included |
| `FailoverRuns.IssuedIsDurable` | crates/tsoracle-server/src/service.rs:559-676 | under each driver mechanism everything issued lies under the durable high-water and fits 64 bits |
| `FailoverRuns.IssuedFollowsFence` | crates/tsoracle-server/src/fence.rs:255-281 | under each driver mechanism nothing is issued below the clock its fence read, or at or below the high-water its fence loaded |
| `FailoverRuns.FenceOpensAtLeast` | crates/tsoracle-server/src/fence.rs:255-270 | a fence opens at the least millisecond above the loaded high-water and not behind the clock, and asks for the look-ahead on top |
| `FailoverRuns.SeedOpensWindow` | crates/tsoracle-server/src/fence.rs:275-281 | a completed fence serves from its floor to what the driver returned, or not at all if that is below the floor or out of range |
| `FailoverRuns.SilentUntilSeeded` | crates/tsoracle-server/src/fence.rs:116-420 | a node that stepped down, crashed or entered a fence issues nothing more until it completes a fence, whatever happens meanwhile |
| `FailoverRuns.LaterEpochIsAbove` | docs/the-allocator.md:33-43 | in a fenced run everything a later epoch issues lies above everything an earlier epoch issues, in whichever order |
| `FailoverRuns.NoTimestampIssuedTwice` | docs/the-allocator.md:33-43 | in a fenced run no two grants share a timestamp |
| `FailoverRuns.IssueOrderIffEpochOrder` | docs/the-allocator.md:33-43 | in a fenced run issue order is timestamp order exactly when epochs never regress in issue order |
| `FailoverRuns.CommitCheckRunsAreFenced` | crates/tsoracle-consensus/src/driver.rs:104-129 | every run is fenced with a driver that compares the epoch where the write commits and returns the value of that moment |
| `FailoverRuns.FencedIsUncontested` | docs/the-allocator.md:33-43 | a fenced run never reaches a state in which two claims, issued or still open, share a timestamp |
| `FailoverRuns.ReissueIffContested` | crates/tsoracle-server/src/service.rs:559-676 | under any driver, applying acknowledgements and serving can lead from a reachable state to a repeated timestamp exactly when two claims share one now |
| `FailoverRuns.UnfencedAckContests` | crates/tsoracle-driver-paxos/src/standalone.rs:287-304 | an acknowledgement above a later epoch's load that reaches a node still serving, while the later window is open below it, contests a timestamp |
| `FailoverRuns.StaleLeaderRegresses` | docs/the-allocator.md:33-43 | with every driver mechanism there is a run in which real-time issue order falls |
| `FailoverRuns.PreCheckReissues` | crates/tsoracle-driver-paxos/src/driver.rs:210-237 | a run of a driver that checks the epoch before proposing in which two nodes issue the same timestamp |
| `FailoverRuns.ForwardingReissues` | crates/tsoracle-driver-openraft/src/driver.rs:111-128 | a run of a driver that ignores the epoch in which two nodes issue the same timestamp |
| `Budgets.NextAttempt` | crates/tsoracle-client/src/budget.rs:67-75 | there is a budget exactly before the deadline, it never overruns it, and it is cut only when the deadline is nearer |
| `Budgets.ClampBackoff` | crates/tsoracle-client/src/budget.rs:77-82 | a sleep never ends past the deadline and is cut only then |
| `Budgets.WindowDoubles` | crates/tsoracle-client/src/retry_policy.rs:188-209 | the sleep window starts at the base and doubles with each attempt up to the cap, twenty times at most |
| `Budgets.Nap` | crates/tsoracle-client/src/retry_policy.rs:195-209 | the jittered, capped, clamped sleep stays in its window, under five seconds and before the deadline, and any length that does can be picked |
| `Budgets.RunPair` | crates/tsoracle-client/src/budget.rs:84-104 | a connect and RPC pair takes at most its budget, and each way it can end has its exact condition |
| `Worklists.Worklist.Next` | crates/tsoracle-client/src/worklist.rs:60-70 | the first unvisited endpoint is handed out once, what follows it stays queued, and none is left exactly when all queued were visited |
| `Worklists.Worklist.RedirectTo` | crates/tsoracle-client/src/worklist.rs:72-74 | the hint goes to the front |
| `Retry.CountersTrackTrace` | crates/tsoracle-client/src/retry.rs:180-206 | the loop's counters count the trace, and a call follows at most 64 hints |
| `Retry.EveryPassIsBounded` | crates/tsoracle-client/src/retry.rs:110-132 | every pass dials each endpoint at most once, at most its seed plus 16 of them, and follows at most 16 hints |
| `Retry.DialUsesUpPass` | crates/tsoracle-client/src/retry.rs:208-343 | every dial lowers the pass measure, so each pass ends whatever the peers answer |
| `Retry.DialOrder` | crates/tsoracle-client/src/worklist.rs:60-74 | every dial goes to the hint just followed, if it is new to the pass, and otherwise to the first endpoint of the pass's seed not dialed yet |
| `Retry.NothingForgotten` | crates/tsoracle-client/src/worklist.rs:60-74 | whatever a pass was seeded with or steered to has been dialed or is still queued |
| `Retry.OutcomeIsBooked` | crates/tsoracle-client/src/retry.rs:229-343 | errors are charged and kept, signs of an election and unusable hints are kept without a charge, hints below the caps neither; each under its own status |
| `Retry.HintIsObeyed` | crates/tsoracle-client/src/retry.rs:229-300 | below the caps the next dial is of the hinted endpoint unless the pass has dialed it; at the pass's cap it belongs to the next pass; at the call's cap there is none |
| `Retry.PassIsDue` | crates/tsoracle-client/src/retry.rs:345-358 | a further pass starts only after a sign of an election in the one before, once that was cut short at its redirect cap or had dialed its whole seed and every hint it followed |
| `Retry.FirstPassCoversSeed` | crates/tsoracle-client/src/retry.rs:186-212 | reaching the failed-attempt cap in the first pass leaves no initial endpoint undialed |
| `Retry.ColdSweepIsComplete` | crates/tsoracle-client/src/retry.rs:186-196 | a call that gives up in its first pass with time and redirects left has dialed every endpoint it started from |
| `Retry.NoDialPastCap` | crates/tsoracle-client/src/retry.rs:208-211 | nothing is dialed once the cap is reached |
| `Retry.DialsRespectDeadline` | crates/tsoracle-client/src/retry.rs:212-216 | dials do not overlap, and no dial or sleep ends past the overall deadline |
| `Retry.SurfacedErrorIsHonest` | crates/tsoracle-client/src/retry.rs:381-395 | a failed call reports an error it recorded, never a transport one once an election was signalled, and the fallback exactly when every dial was a followed hint |
| `Retry.SurfacedByRank` | crates/tsoracle-client/src/retry.rs:363-395 | the error told is the last recorded if that is somebody's answer, else the last sign of an election, else the last connection problem |
| `RetryLoop.AskSelfHinting` | crates/tsoracle-client/src/retry.rs:163-395 | a call to a lone peer that answers at once but names itself ends in the report that nothing was reachable, for every endpoint, policy and start |
| `Retry.NothingFollowsTerminal` | crates/tsoracle-client/src/retry.rs:830-968 | no dial follows a success or an ambiguous outcome |
| `RetryLoop.ServedIsFirstGoodReply` | crates/tsoracle-client/src/retry.rs:225-228 | what a served caller gets is the reply of the script entry met last, and no earlier entry gave a good one |
| `RetryLoop.AttemptIsBooked` | crates/tsoracle-client/src/attempt.rs:93-244 | slow and failed connects and slow replies are charged under their own error after exactly the time they took, and a reply in time counts as it is |
| `RetryLoop.FailureWasDue` | crates/tsoracle-client/src/retry.rs:208-361 | a failed call met one hint too many, or ran out of time, or saw no sign of an election in its last pass and had reached its failure cap or dialed the pass's whole seed and every hint it followed |
| `RetryLoop.DialOnce` | crates/tsoracle-client/src/retry.rs:227-343 | one attempt with its bookkeeping is a legal dial with the attempt's verdict, followed by a sleep exactly after a connection problem |
| `RetryLoop.RunPass` | crates/tsoracle-client/src/retry.rs:197-344 | a pass extends a legal trace through the script without skipping and stops only on success or with its worklist, caps or deadline used up |
| `RetryLoop.IssueRpc` | crates/tsoracle-client/src/retry.rs:163-361 | success is the first good reply; failure is the surfaced error, given only when the last pass was used up and no further pass was due; dials start at once, follow without pause within a pass and after the pass's own nap across passes, within the policy's deadlines; a failed first pass with time left has dialed its whole seed |
| `LeaderCaches.LeaderCache.SeatLeader` | crates/tsoracle-client/src/channel_pool.rs:282-324 | the in-place write is the specified one; a refused write changes nothing |
| `LeaderCaches.LeaderCache.FreshLeader` | crates/tsoracle-client/src/channel_pool.rs:202-220 | the leader to dial first is the cached one, exactly while its time has not run out |
| `LeaderCaches.FreshEntryYieldsIff` | crates/tsoracle-client/src/channel_pool.rs:292-313 | a fresh entry yields to another endpoint's success exactly on an epoch no lower than its own known one, and to a hint also where it has no epoch or where the hint has none and names a configured endpoint |
| `LeaderCaches.OwnOrAbsentEntry` | crates/tsoracle-client/src/channel_pool.rs:285-323 | a write for the cached endpoint refreshes it and never loses an epoch; an absent or expired entry is replaced as written |
| `LeaderCaches.LeaderCache.ClassifyNotLeaderHint` | crates/tsoracle-client/src/leader_hint.rs:42-142 | a hint is followed exactly when it is usable and seated, the cache changes only then, and a trailer is rejected exactly when malformed, empty or plaintext under TLS |
| `LeaderCaches.HighestEpochWins` | crates/tsoracle-client/src/channel_pool.rs:99-105 | without expiry the cache holds a claim made at the highest epoch seen |
| `LeaderCaches.ArrivalOrderIrrelevant` | crates/tsoracle-client/src/channel_pool.rs:282-324 | when that epoch names one endpoint, every arrival order leaves the same entry |
| `LeaderCaches.RegressionExactly` | crates/tsoracle-client/src/channel_pool.rs:282-324 | a write lowers a known epoch exactly when it finds the entry expired or is an epoch-less hint to another configured endpoint, and carries less |
| `LeaderCaches.EpochMonotoneBetweenResets` | crates/tsoracle-client/src/channel_pool.rs:282-324 | over any stretch of any run without such writes the cached epoch never falls |
| `ChannelPools.RunKeepsInv` | crates/tsoracle-client/src/channel_pool.rs:377-410 | in every reachable state at most 8 slots are for unconfigured endpoints and no two endpoints share a cell |
| `ChannelPools.PoolIsBounded` | crates/tsoracle-client/src/channel_pool.rs:47-57 | the map never exceeds the configured endpoints plus 8 |
| `ChannelPools.EvictedNeverReturns` | crates/tsoracle-client/src/channel_pool.rs:479-487 | a cell removed by eviction is never handed to a later lookup of any endpoint |
| `ChannelPools.SharedUntilEvicted` | crates/tsoracle-client/src/channel_pool.rs:377-410 | two lookups of a configured endpoint return the same cell exactly when that cell was not evicted in between |
| `ChannelPools.ChannelPool.LeastRecentlyUsed` | crates/tsoracle-client/src/channel_pool.rs:524-530 | the victim is least recently used among the candidates |
| `ChannelPools.ChannelPool.EnforceHintCap` | crates/tsoracle-client/src/channel_pool.rs:510-540 | the sweep leaves as many hinted slots as fit the cap, keeps configured and just-requested slots, evicts only slots unused at least as long as every hinted one that stays, and does nothing under the cap |
| `ChannelPools.ChannelPool.Find` | crates/tsoracle-client/src/channel_pool.rs:377-410 | a lookup returns the present cell or a fresh one, touches its slot, and keeps the pool invariant |
| `ChannelPools.ChannelPool.EvictIfCurrent` | crates/tsoracle-client/src/channel_pool.rs:479-487 | the slot goes exactly when it still holds the failed cell |
| `ChannelPools.DialOrderIsComplete` | crates/tsoracle-client/src/channel_pool.rs:553-574 | a dial order is duplicate-free, holds exactly the configured endpoints and the fresh leader, leader first |
| `ChannelPools.LeaderKeepsRotation` | crates/tsoracle-client/src/channel_pool.rs:553-574 | putting the leader first leaves the rotation of the others as it was |
| `ChannelPools.FairIffWrapsEvenly` | crates/tsoracle-client/src/channel_pool.rs:553-574 | over as many consecutive leaderless calls as endpoints each endpoint stands at each position exactly once, if and only if the cursor does not wrap among them or the number of endpoints divides 2^64 |
| `Attempts.ReadingByFields` | crates/tsoracle-client/src/attempt.rs:158-195 | how each reply reads, from its fields: success exactly for a response of the size asked for whose timestamps pack, and each kind of redirect and error |
| `Attempts.ReadReply` | crates/tsoracle-client/src/attempt.rs:158-195 | a reply reads as specified, a success holds exactly the response's timestamps and epoch, and only a followed hint touches the leader cache, under its own epoch |
| `Attempts.AttemptGetTs` | crates/tsoracle-client/src/attempt.rs:93-244 | an attempt's outcome is the retry model's verdict on its timings, a success holds exactly the response's timestamps and epoch, and the leased channel is evicted exactly on a failed dial, an unavailable or timed-out status or a timed-out request |
| `ChannelPools.ChannelPool.IterRoundRobin` | crates/tsoracle-client/src/channel_pool.rs:553-574 | the loop produces the specified order and advances the wrapping cursor by one |
| `SeqRetry.PreCheck` | crates/tsoracle-client/src/lib.rs:267-286 | a batch is sent exactly when it is non-empty with valid distinct keys and non-zero counts, and is refused for its first faulty entry |
| `SeqRetry.RetriesOnlyWhenCertain` | crates/tsoracle-client/src/seq_attempt.rs:80-99 | the loop goes on exactly after statuses a conforming server gives before committing, and believes a success exactly when it matches the request |
| `SeqRetry.GoesOnOnlyWhenCertain` | crates/tsoracle-client/src/retry.rs:800-970 | after a request that may have been sent, going on needs a timely reply of that kind |
| `SeqRetry.NotLeaderIsDispatched` | crates/tsoracle-client/src/retry.rs:860-953 | a seated hint costs nothing and is dialed next below the caps unless the pass has dialed it; an unseated one signals an election without a charge; a bare or unusable one is charged under its own status |
| `SeqRetry.FailureIsCharged` | crates/tsoracle-client/src/retry.rs:775-968 | slow and failed connects and the other pre-commit refusals are charged as failures under their own error |
| `SeqRetry.SeqFailureWasDue` | crates/tsoracle-client/src/retry.rs:734-984 | a plainly failed call had no room for a full attempt, or met one hint too many, or saw no sign of an election in its last pass and had reached its failure cap or dialed the pass's whole seed and every hint it followed |
| `SeqRetry.ValidateGrants` | crates/tsoracle-client/src/retry.rs:831-859 | the validation loop accepts exactly a position-by-position match, and its blocks hold the granted starts, the asked counts and the reply's epoch |
| `SeqRetry.SeqDialOnce` | crates/tsoracle-client/src/retry.rs:775-968 | one dense attempt with its bookkeeping is a legal dial with the attempt's verdict, followed by a sleep exactly after a connection problem other than a slow connect |
| `SeqRetry.RunSeqPass` | crates/tsoracle-client/src/retry.rs:750-970 | a pass extends a legal trace, gives every dial after the first the full per-attempt budget, and stops only on a final outcome or for a stated reason |
| `SeqRetry.IssueSeqBatchRpc` | crates/tsoracle-client/src/retry.rs:734-984 | success is the last dial's answer, the uncertain error exactly an ambiguous last dial, any other error the surfaced one and given only when no further full attempt was due; dials are paced and within the policy's deadlines, and every dial after the first has the full budget |
| `SeqRetry.OnlyLastMayCommit` | crates/tsoracle-client/src/retry.rs:734-984 | every earlier request that may have been sent came back, in time, with a pre-commit refusal |
| `SeqRetry.EndingsAreHonest` | crates/tsoracle-client/src/retry.rs:734-984 | success means the last reply matched the batch, and the blocks are its starts under its epoch; an error other than the uncertain one means every request that may have been sent was refused before committing |
| `Dense.RunKeepsInv` | crates/tsoracle-consensus/src/driver.rs:138-164 | any interleaving of calls, sends, late commits, refusals, replies and timeouts keeps log, request table, counters and verdicts consistent |
| `Dense.OrdinalsAreDense` | crates/tsoracle-consensus/src/driver.rs:138-164 | an ordinal is below a key's counter exactly when a committed block covers it, and then exactly one does |
| `Dense.CountersFit` | crates/tsoracle-consensus/src/driver.rs:138-164 | no counter ever leaves 64 bits |
| `Dense.CommitsAtMostOnce` | crates/tsoracle-client/src/retry.rs:425-717 | a call commits at most once, and only if it succeeded, was told it is uncertain, or still waits on that request |
| `Dense.SuccessIsCommitted` | crates/tsoracle-client/src/retry.rs:734-984 | returned blocks are those of the call's one commit, position by position |
| `Dense.VerdictsAreFinal` | crates/tsoracle-client/src/retry.rs:734-984 | what a caller was told never changes |
| `Dense.PlainErrorMeansNoCommit` | crates/tsoracle-client/src/retry.rs:734-984 | after any error but the uncertain one, nothing of the call is committed then or later |
| `Dense.SuccessesAreDisjoint` | crates/tsoracle-client/src/retry.rs:425-717 | two callers never receive the same ordinal of a key |
| `Dense.UncertainIsOpen` | crates/tsoracle-client/src/seq_attempt.rs:80-99 | an uncertain call may still commit or never commit, so no stronger verdict would be right |
| `Dense.ReplyTo` | crates/tsoracle-server/src/service.rs:409-494 | a driver answer becomes a matching grant list under the epoch or the status named for it, and a pre-commit status exactly for a driver refusal |
| `Dense.GetSeqBatch` | crates/tsoracle-server/src/service.rs:341-494 | whatever a conforming driver does, the reply is one the client's classification may rely on; a faulty request to a serving leader is an invalid argument, and a sound one to a node that may not serve it gets the redirect |
| `DenseCalls.FinishedCallIsARun` | crates/tsoracle-client/src/retry.rs:734-984 | a finished call of the verified loop is a sequence of enabled protocol steps for that call, ending in the phase its caller was told, from any reachable state |
| `Chunking.ChunksPartitionQueue` | crates/tsoracle-client/src/driver.rs:223-250 | the chunks are the servable waiters in order, in non-empty runs that fit one RPC and carry their true total |
| `Chunking.ValidOrInvalid` | crates/tsoracle-client/src/driver.rs:229-233 | every queued waiter is chunked or rejected, never both |
| `Chunking.FewestRpcs` | crates/tsoracle-client/src/driver.rs:223-250 | no in-order cut into requests that fit uses fewer |
| `Chunking.ChunkQueue` | crates/tsoracle-client/src/driver.rs:223-250 | the draining loop computes that cut and those rejections, within 32 bits |
| `Chunking.SlicesFollow` | crates/tsoracle-client/src/driver.rs:365-377 | the slices of one reply follow each other without gap or overlap |
| `Chunking.Deliver` | crates/tsoracle-client/src/driver.rs:344-383 | each waiter gets its slice of the range, or all get the same error on a failure or a count mismatch |
| `Chunking.CopyKeepsKind` | crates/tsoracle-client/src/driver.rs:386-418 | a copied error is the same one, except that a transport error becomes its stand-in, which is still a transport failure |
| `Chunking.RunChunks` | crates/tsoracle-client/src/driver.rs:263-278 | RPCs stop at the first failure and every waiter of a later chunk is told that failure |
| `Coalescer.RunKeepsFlow` | crates/tsoracle-client/src/driver.rs:126-278 | in every reachable state the waiting and the answered partition the accepted, oldest first |
| `CoalescerRuns.WaitingOrAnswered` | crates/tsoracle-client/src/driver.rs:105-124 | an accepted waiter waits in exactly one place or has been answered |
| `CoalescerProgress.EveryWaiterIsAnswered` | crates/tsoracle-client/src/driver.rs:126-278 | once callers stop arriving the driver can take only a known number of steps, and when none is left every accepted waiter has been answered |
| `CoalescerProgress.SomethingToDo` | crates/tsoracle-client/src/driver.rs:126-278 | while someone waits, a driver step other than a panic is enabled |
| `CoalescerProgress.StoppedIsDone` | crates/tsoracle-client/src/driver.rs:142-196 | a stopped driver with no batch in flight has answered everyone it accepted |
| `CoalescerRuns.AnswersAreFinal` | crates/tsoracle-client/src/driver.rs:321-325 | an answer is the waiter's only one |
| `CoalescerReplies.EveryReplyIsCaused` | crates/tsoracle-client/src/driver.rs:229-278 | in every reachable state a waiter no RPC can carry was told its own count, and any other got its count of values out of a fully returned range, the error of a failed or short RPC issued after it was received, or was dropped |
| `CoalescerReplies.InvalidCountIsExact` | crates/tsoracle-client/src/driver.rs:229-233 | while the driver lives, a waiter hears that its count is invalid exactly when no RPC can carry it, unless an RPC reported such an error itself |
| `CoalescerReplies.OnlyEndedTasksDrop` | crates/tsoracle-client/src/driver.rs:126-196 | without a panic or a stop no waiter is dropped |
| `CoalescerReplies.FlushWhenOldestIsDue` | crates/tsoracle-client/src/driver.rs:176-196 | a flush may happen exactly when the driver lives, has no batch out, and received its oldest queued waiter a full interval ago |
| `CoalescerRuns.CapacityHolds` | crates/tsoracle-client/src/driver.rs:43-61 | queue and batch hold at most 2048 waiters each, channel and queue together at most 4096; a first arrival is noted exactly while the queue is non-empty |
| `CoalescerRuns.CapacityIsReached` | crates/tsoracle-client/src/driver.rs:43-61 | queue and channel can be filled to any lengths up to 2048 each |
| `CoalescerRuns.NoRpcAfterFailure` | crates/tsoracle-client/src/driver.rs:263-278 | no RPC follows a failed or abandoned one in the same batch |
| `CoalescerRuns.SlicesAreExactAndFresh` | crates/tsoracle-client/src/driver.rs:344-383 | a served waiter gets exactly its count of consecutive values from an RPC issued after the driver received it |
| `CoalescerRuns.DeliveredTimestampsRise` | crates/tsoracle-client/src/driver.rs:126-278 | if the server's ranges rise from RPC to RPC, delivered timestamps strictly increase in acceptance order over a whole run |
| `CoalescingDriver.Driver.Request` | crates/tsoracle-client/src/driver.rs:105-124 | a caller is accepted exactly when the driver lives and the channel has room |
| `CoalescingDriver.Driver.Receive` | crates/tsoracle-client/src/driver.rs:280-287 | one receive step of the state machine |
| `CoalescingDriver.Driver.Reply` | crates/tsoracle-client/src/driver.rs:321-325 | the reply loop answers the waiters in order |
| `CoalescingDriver.Driver.Flush` | crates/tsoracle-client/src/driver.rs:196-209 | one flush step of the state machine |
| `CoalescingDriver.Driver.IssueRpc` | crates/tsoracle-client/src/driver.rs:266-269 | one issue step, asking for the chunk's total |
| `CoalescingDriver.Driver.CompleteRpc` | crates/tsoracle-client/src/driver.rs:269-276 | one return step: delivery and remembered failure |
| `CoalescingDriver.Driver.FailChunk` | crates/tsoracle-client/src/driver.rs:266-267 | one fail-fast step |
| `Supervision.MonotonicityCount` | benchmarks/stress/src/supervisor.rs:237-272 | monotonicity violations are as many as samples not above their client's earlier maximum plus samples repeating a timestamp |
| `Supervision.MonotonicitySilentIff` | benchmarks/stress/src/supervisor.rs:237-272 | there are none exactly when all timestamps are positive, rise per client and never repeat |
| `SupervisionReports.MonotonicityAddedIff` | benchmarks/stress/src/supervisor.rs:237-266 | exactly which monotonicity violations an event adds, each naming the client's highest earlier timestamp or the repeated one |
| `Supervision.FencesAreOpenWindows` | benchmarks/stress/src/supervisor.rs:286-315 | the open list is exactly the leadership windows no late sample has judged; none is dropped early |
| `Supervision.FenceReportIsExact` | benchmarks/stress/src/supervisor.rs:286-315 | the fence violations are, in order, those of windows whose first late sample does not exceed what arrived before the window |
| `Supervision.FenceSilentIff` | benchmarks/stress/src/supervisor.rs:286-315 | no fence violation is reported exactly when every judging sample lies above every sample that arrived before its window |
| `Supervision.JudgeIsUnique` | benchmarks/stress/src/supervisor.rs:286-309 | a window is judged at most once |
| `SupervisionReports.RealtimeReportsAreSound` | benchmarks/stress/src/supervisor.rs:342-377 | every real-time violation has an earlier, higher sample of another client, delivered before the flagged one was asked for |
| `SupervisionReports.RealtimeReportedIff` | benchmarks/stress/src/supervisor.rs:342-377 | of every inversion: its sample adds a real-time violation to the report exactly when nothing else is wrong with it, no unjudged leadership window covers it, and the first sample to reach the highest earlier timestamp had been delivered by then |
| `SupervisionReports.RealtimeAddedIff` | benchmarks/stress/src/supervisor.rs:342-377 | exactly which events add a real-time violation, and which one |
| `SupervisionReports.BatchAddedIff` | benchmarks/stress/src/supervisor.rs:379-398 | an event adds a batch violation exactly when it closes a batch whose timestamps since its last closing, in order of arrival, do not go up by one; the violation holds those timestamps |
| `SupervisionReports.LivenessAddedIff` | benchmarks/stress/src/supervisor.rs:426-458 | an incident is reported exactly when no fault applied before it shares an instant with it, for spans that hold an instant at all |
| `SupervisionReports.ExplainsIffShared` | benchmarks/stress/src/supervisor.rs:436-450 | a fault that shares an instant with an incident explains it, and one that does not explains it only if one of the spans is empty |
| `SupervisionReports.EmptyFaultExplains` | benchmarks/stress/src/supervisor.rs:436-445 | every fault of no length inside the attempts explains their failure without sharing an instant |
| `SupervisionReports.InversionCanBeMissed` | benchmarks/stress/src/supervisor.rs:342-377 | a real inversion that goes unreported |
| `Supervisors.ReplaySummarises` | benchmarks/stress/src/supervisor.rs:72-108 | the few maxima, sets and lists kept online determine the report over the whole history |
| `Supervisors.CheckBatch` | benchmarks/stress/src/supervisor.rs:461-485 | a violation exactly when the closed batch is not consecutive |
| `Supervisors.Supervisor.CheckMonotonicity` | benchmarks/stress/src/supervisor.rs:237-266 | the per-client and uniqueness checks and what they remember |
| `Supervisors.Supervisor.CoveredByChaos` | benchmarks/stress/src/supervisor.rs:275-284 | whether an unjudged leadership window covers the sample |
| `Supervisors.Supervisor.CheckFences` | benchmarks/stress/src/supervisor.rs:286-310 | the marking loop judges exactly the due windows |
| `Supervisors.Supervisor.Prune` | benchmarks/stress/src/supervisor.rs:311-315 | pruning keeps every unjudged window, in order |
| `Supervisors.Supervisor.CheckRealtime` | benchmarks/stress/src/supervisor.rs:342-377 | the comparison with the highest earlier sample and its update |
| `Supervisors.Supervisor.TrackBatch` | benchmarks/stress/src/supervisor.rs:379-398 | batch collection and its check on closing |
| `Supervisors.Supervisor.OnIssued` | benchmarks/stress/src/supervisor.rs:200-399 | one sample step, all checks in the code's order |
| `Supervisors.Supervisor.OnChaos` | benchmarks/stress/src/supervisor.rs:401-424 | one chaos step; unapplied events are ignored |
| `Supervisors.Supervisor.OnLiveness` | benchmarks/stress/src/supervisor.rs:426-458 | an incident is reported exactly when no applied window explains it |
| `Supervisors.Supervisor.FinalPass` | benchmarks/stress/src/supervisor.rs:195-198 | unsettled batches and windows are dropped without a report |
| `Supervisors.Feed` | benchmarks/stress/src/supervisor.rs:169-181 | the loop consumes every event before the first end marker, in order |
| `Supervisors.Run` | benchmarks/stress/src/supervisor.rs:169-189 | a whole run reports exactly what the definitions over the consumed events say |

## Left out

- gRPC, TLS, URI handling, connectors and channels: a dial is an input with a duration and an outcome.
- The lease table, the wire codec, the file, openraft and paxos drivers: the driver is its stated contract and, for a persist, where it checks the epoch and what it returns.
- The fence's drain barrier, its retry backoff and the serving flag: `Failover` allows every interleaving they would forbid, so its guarantees do not rest on them.
- `get_seq` for a single key: modelled as a batch of one entry, whose loop and classification are the same.
- Counters saturating at 32 bits in the retry loops are unbounded here; their caps are far below that.
- Random choices inside the jittered backoff and the cursor seed are arbitrary inputs.
- `Attempts.AttemptGetTs` runs its lock-held sections with no other caller in between; interleavings of lookups and evictions are those of `ChannelPools.RunKeepsInv` and `ChannelPools.EvictedNeverReturns`.
- The paxos node's own view of the current ballot may lag; `Failover` lets the check before proposing see the newest one, which only makes it stricter.
- The write that a successful call makes to the leader cache is `LeaderCaches.LeaderCache.SeatLeader` with a confirmed source; the retry loops do not carry the cache, and a pass's seed is an input to them.
- Completeness of the retry loops beyond their script: passes that see an election are bounded by the deadline only.
- The supervisor's latency histogram, event copies and violation timestamps; overflow of a batch value at the top of 64 bits.
- Metrics, tracing, the driver's death-rattle observer and the text of error messages.
- Command line, benchmarks' load generation, fuzz targets and build scripts.
