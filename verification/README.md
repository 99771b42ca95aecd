# Verified model of the outbound dialer

The repository dials borrowers on behalf of logged-in agents. Many workers, event appliers and reapers
share four PostgreSQL tables and nothing else. This project models that protocol, and the arithmetic that
feeds it, and proves what the repository promises of both. `dafny verify dfyconfig.toml` checks it all.

**The protocol.** `Domain` and `Rows` hold the states, the rank and legality tables and, row by row, every
SQL statement. `Transactions` composes them into the transactions as functions on the tables. `World` adds
a clock, the placements whose worker is between transaction 1 and transaction 3, and three records that
only the proofs read (the states each call has had, who serves which call, each borrower's calls in order).
`Protocol` lists the steps: reserve-and-create (with its abort on the UNIQUE key), provider rejection,
transaction 3, worker crash, ingest, event application, pullback, reap, passing time, and presence changes
of idle agents. Each transaction is one step because its rows are locked; the exception is event
application, whose read of the call takes no lock, so it works from any older committed state of that call.
`Preservation`, `Recovery` and `Runs` prove that every step, hence every interleaving, keeps the coherence
invariant. `Effects` states in columns what each transaction leaves in the rows, and `Stamps` what the time
columns and failure reasons tell. `Laws`, `Finality`, `Lifecycle`, `Deduplication`, `EndToEnd`, `Pullback`,
`Accounting` and `Limits` say what follows, and `Example` is a run that meets the hypotheses of the
end-to-end theorem.

**The code that runs it.** `Database.Store` is the imperative form of repositories, allocator, applier and
reaper: statements that update rows in place, composed into transactions with the source's branches and
rollbacks, each proved equal to its function in `Transactions` or `Ledger`. Every write of an agent or call
fires the counter triggers, and the store's validity says the counters equal the GROUP BY counts.
`Allocations`, `Schedules` and `Sweeps` carry the proofs of its two concurrent loops; `Drains` and
`Operations` show that a drain, a reap, a pullback sweep, a batch and a whole tick are runs of the protocol,
so that all that is proved of reachable states holds of the tables they leave.
`CircuitBreaker`, `VirtualClock`, `MockProvider` and `SafetyController` are classes in the same way, and
`PacingLoop.Tick` runs store and controller together.

**Hypotheses**, each as in the source or stated with exactly what it buys:

- A placement acts only while its reserve lease has not passed; otherwise its worker counts as crashed. The
  source does not enforce this. `Limits` proves the unconditional writes of transaction 3 and of the
  rejection path safe if and only if the call is still unfinished, shows that timely workers always meet
  that test, and gives a reachable run in which a late worker strands an agent or miscounts an attempt.
- Login, logout and pause are applied to agents not on a call (`src/smartdialer/sim/injectors.py:33-37`);
  `Limits.PresenceIsSafeIffIdle` shows this is necessary, and `Limits.LogoutOfBusyAgentBreaks` where it fails.
- The provider's event ids and call ids are fresh, and nobody else reports events under its references.
- Borrowers have `max_attempts` of at least 1. Circuit breakers have a window of at least 0 and at least one
  `min_calls` and one probe.
- The applier's clock is the leases' clock; columns stamped with the database's own `now()` take an
  arbitrary time, so the borrower-lock sweep may fire at any moment, mid-call included.

**Where the code and its documentation differ.** README invariant I8 says no agent stays RESERVED or
DIALING longer than its lease. The code deliberately keeps the agent of a ringing call, so I8 is false as
worded: `Limits.RingingAgentOutlivesItsLease` is a run that shows it, and
`Recovery.ExpiredAgentIsFreedIffNotRinging` is the exact statement. `ARCHITECTURE.md` bases the overdial
ceiling on available agents; the code uses staffed agents, and so does the model.

## Model

| member | source | states |
|---|---|---|
| `Laws.AgentsAndCallsCorrespond` | src/smartdialer/allocator/allocator.py:41-134 | In every reachable state non-terminal calls and RESERVED/DIALING/CONNECTED agents are in one-to-one correspondence and each pair of rows agrees (state, `current_call_id`, lease), through crashes, reaps, pullbacks and late events |
| `Laws.Conservation` | src/smartdialer/domain/models.py:27-43 | In every reachable state and per campaign: ringing calls equal dialing agents, connected calls equal connected agents, and live calls never exceed staffed agents |
| `Laws.EveryAttemptIsCounted` | src/smartdialer/repo/borrowers.py:21-44 | For every borrower `attempt_count` is the number of its finished calls, these carry attempts 1..attempt_count once each, and at most one call is live, with the next attempt number, although locks are reclaimed mid-call |
| `Laws.NeverDialledTooOften` | src/smartdialer/repo/borrowers.py:21-28 | No borrower ever has more than `max_attempts` calls; PENDING or LOCKED means an attempt is left; the borrower of a live call is PENDING or LOCKED |
| `Laws.HistoriesAreLegal` | src/smartdialer/domain/transitions.py:20-39 | Over any run the committed writes of a call form a path in LEGAL_NEXT, `state_rank` is RANK of the state, nothing is committed in ANSWERED or QUEUED, and CONNECTED is written only straight after ANSWERED, by the bridge |
| `Laws.AtMostThreeCleanEvents` | src/smartdialer/worker/event_applier.py:45-74 | However many duplicates arrive and appliers race, at most three ledger events per call are applied without an anomaly |
| `Laws.StaleReadIsHarmless` | src/smartdialer/worker/event_applier.py:46-67 | An applier that checked legality against any older committed state leaves agents, borrowers and calls as one that had read the row under its lock, and marks the event clean in exactly the same cases |
| `Laws.BridgeAlwaysSucceeds` | src/smartdialer/worker/event_applier.py:10-21 | In every reachable state an ANSWERED event either connects the call and its agent or changes neither; the ABANDONED branch of the bridge is never taken |
| `Effects.EndingSettles` | src/smartdialer/repo/borrowers.py:21-37 | Whatever ends a live call (rejection, event, pullback or reaper), in columns: its agent is WRAP_UP until now + wrap-up if the call was COMPLETED and AVAILABLE without lease or call otherwise; its borrower is unlocked, has one attempt more, and is DONE if it was COMPLETED, otherwise EXHAUSTED if attempts + 1 >= max_attempts and else PENDING, due 60 s later (30 s after a pullback, 120 s after the reaper) |
| `Effects.DeliverySettles` | src/smartdialer/worker/event_applier.py:24-74 | One event, in columns, with a read however old: it rings, connects or ends its call, or changes nothing but its own row; which is decided by the call's state alone; it is marked ILLEGAL_TRANSITION only if it claims CONNECTED for a call read unanswered, and otherwise OUT_OF_ORDER |
| `Effects.AppliedEventSettles` | src/smartdialer/worker/event_applier.py:45-74 | The same of `apply_one`, with the events that name no known call or no state |
| `Effects.UnheldAnswerIsAbandoned` | src/smartdialer/worker/event_applier.py:10-21 | On any tables, an answered call whose agent is not DIALING for it becomes ABANDONED rather than CONNECTED, and frees agent and borrower like any other ending |
| `Effects.RejectionEnds` | src/smartdialer/allocator/allocator.py:99-105 | A timely rejection in columns: the three rows it writes, the reason it gives, and nothing else |
| `Effects.CancellationEnds` | src/smartdialer/repo/calls.py:38-45 | A cancellation in columns: if the call is INITIATED or RINGING the three rows it writes and the reason it gives, otherwise nothing at all |
| `Effects.InitiationDials` | src/smartdialer/repo/calls.py:15-29 | A timely transaction 3 in columns: the call gets state, reference, time and lease, its agent is DIALING for it under the same lease; if another call of the provider has the reference, nothing is written |
| `Effects.PlacementReserves` | src/smartdialer/allocator/allocator.py:51-81 | Reserve-and-create in columns: it makes a call exactly if it wins the agent's version, finds a borrower and a provider, and no call of the borrower is live; the new call's every column, the reserved agent and the locked borrower, who was PENDING and due; on the other exits only the agent's version tells, or nothing |
| `Effects.ReapSettles` | src/smartdialer/worker/reaper.py:22-85 | A whole reap in columns: exactly the RESERVED and INITIATED calls with a lease before t fail; their agents are freed and their borrowers charged, due in 120 s; a WRAP_UP agent is AVAILABLE if its lease lies before t and untouched if not; a DIALING one of a ringing call only loses its lease; a borrower whose lock ran out is PENDING and unlocked; every other row is equal |
| `Stamps.StampsTellTheHistory` | src/smartdialer/repo/calls.py:15-29 | In every reachable state each time column of a call is set if and only if the call has been in that state, `connected_at` equals `answered_at`, and `failure_reason` names who ended it, or is empty |
| `Stamps.StampsAreFinal` | src/smartdialer/repo/calls.py:15-29 | Over any run no time column and no failure reason, once written, is written again |
| `Stamps.StepGrows` | src/smartdialer/repo/calls.py:15-45 | Any step leaves a call's row and history as they were or extends both in one of four ways: dialled, rung, answered and connected, or ended once, with all other columns equal |
| `Stamps.OldestAreSelected` | src/smartdialer/repo/calls.py:95-98 | In every reachable state the calls a pullback selects were all dialled, no later than any ringing call it leaves out |
| `Preservation.NextKeyTakenIffLive` | migrations/001_init.sql:89 | The key a new call of a borrower would get is already taken if and only if the calls table holds a live call of that borrower, so the UNIQUE constraint aborts exactly the double dials |
| `Keys.KeyInjective` | src/smartdialer/allocator/allocator.py:70-71 | The idempotency key determines campaign, borrower and attempt number |
| `Keys.KeySpells` | src/smartdialer/allocator/allocator.py:70-71 | The key spells campaign, borrower and attempt in decimal, in this order, between colons |
| `Preservation.PlaceKeepsInv` | src/smartdialer/allocator/allocator.py:41-81 | Reserve-and-create keeps the coherence invariant on all of its exits, the aborted one included |
| `Preservation.RejectKeepsInv` | src/smartdialer/allocator/allocator.py:99-105 | A timely rejection keeps the invariant |
| `Preservation.InitiateKeepsInv` | src/smartdialer/allocator/allocator.py:117-126 | A timely transaction 3 keeps the invariant |
| `Preservation.CancelKeepsInv` | src/smartdialer/allocator/allocator.py:160-169 | A pullback cancellation keeps the invariant whatever has happened to the candidate since it was selected |
| `Preservation.DeliverKeepsInv` | src/smartdialer/worker/event_applier.py:45-74 | Applying an event keeps the invariant for any incoming state and any older committed read |
| `Preservation.DeliverMovesIffLegal` | src/smartdialer/worker/event_applier.py:54-67 | The table on the old read together with the rank guard on the fresh row lets an event through if and only if the table allows it from the row's own state |
| `Recovery.ReapKeepsInv` | src/smartdialer/worker/reaper.py:69-85 | A whole reap keeps the invariant: no agent becomes AVAILABLE while its call is live |
| `Runs.StepKeepsInv` | src/smartdialer/allocator/allocator.py:83-134 | Every enabled step of the protocol keeps the invariant |
| `Runs.RunKeepsInv` | src/smartdialer/allocator/allocator.py:28-39 | Every interleaving of workers, appliers, reapers, pullbacks and idle-agent presence changes keeps the invariant |
| `Domain.CanApplyIsTheTable` | src/smartdialer/domain/transitions.py:31-39 | `can_apply` accepts exactly the LEGAL_NEXT pairs; its rank tests decide only which anomaly is reported |
| `Domain.LegalNextIsOneStepOrTheEnd` | src/smartdialer/domain/transitions.py:20-28 | LEGAL_NEXT allows, from a live state, exactly the terminal states, the state one rank up, and ANSWERED from INITIATED |
| `Domain.StaleGuardIsFreshGuard` | src/smartdialer/domain/transitions.py:31-39 | For an older read on the way to the current state, table-on-old plus rank-on-current equals table-on-current |
| `Domain.LegalPathClimbs` | src/smartdialer/domain/transitions.py:4-28 | A legal path climbs in rank at every step, so no state recurs and nothing follows a terminal state |
| `Finality.TerminalNeverReopens` | src/smartdialer/repo/calls.py:11-29 | A terminal call keeps its state over every continuation |
| `Finality.RankNeverFalls` | src/smartdialer/repo/calls.py:11-29 | Over any run a call's state stays or moves to one of higher rank |
| `Finality.FinishedBorrowersStayFinished` | src/smartdialer/repo/borrowers.py:21-37 | DONE, EXHAUSTED and SUPPRESSED borrowers are never written again by any run |
| `Deduplication.RunKeepsRows` | src/smartdialer/repo/events.py:18-21 | Over any run the ledger only grows, rows keep provider, id, reference and type, and an applied row is final: an event is applied at most once |
| `Deduplication.RunKeepsLedgerUnique` | migrations/001_init.sql:117 | Over any run no two ledger rows share provider and event id |
| `Recovery.ReapLeavesNoExpiredLease` | src/smartdialer/worker/reaper.py:29-46 | After a reap at t no agent and no RESERVED or INITIATED call holds a lease before t |
| `Recovery.ReapTwiceIsReapOnce` | src/smartdialer/worker/reaper.py:69-85 | A second reap at the same instant finds no orphan and changes no row |
| `Recovery.ExpiredAgentIsFreedIffNotRinging` | src/smartdialer/worker/reaper.py:22-36 | The exact form of "no agent stays RESERVED/DIALING longer than its lease": the reap frees an expired agent if and only if its call has not rung; a ringing call's agent stays DIALING with the lease cleared |
| `Recovery.AfterEveryLeaseOnlyRungCallsHoldAgents` | src/smartdialer/worker/reaper.py:29-46 | Reaped later than every call lease, each agent still busy holds a RINGING or CONNECTED call |
| `Recovery.FailAllCalls` | src/smartdialer/worker/reaper.py:38-46 | The orphan sweep fails exactly the listed calls |
| `Recovery.FailAllAgents` | src/smartdialer/worker/reaper.py:73-76 | The orphan loop frees exactly the agents of the listed calls |
| `Limits.RingingAgentOutlivesItsLease` | README.md:92 | A concrete reachable run in which invariant I8 as worded fails: lease over, reaper run, agent still DIALING for its ringing call |
| `Limits.InitiateIsSafeIffCallStillReserved` | src/smartdialer/allocator/allocator.py:117-126 | Transaction 3, which ignores the result of `advance`, keeps agents and calls in correspondence if and only if the call row still had a rank below INITIATED |
| `Limits.RejectIsSafeIffCallStillReserved` | src/smartdialer/allocator/allocator.py:99-105 | The unconditional rejection path keeps correspondence and attempt counts if and only if the call was not yet finished |
| `Limits.TimelyWorkersAreSafe` | src/smartdialer/allocator/allocator.py:83-90 | A worker acting no later than its reserve lease always finds its call still RESERVED |
| `Limits.PresenceIsSafeIffIdle` | src/smartdialer/repo/agents.py:62-69 | Login, logout and pause keep agents and calls in correspondence if and only if the agent is not on a call |
| `Limits.LateWorkerStrandsAgent` | src/smartdialer/allocator/allocator.py:117-126 | A concrete reachable run in which a worker past its lease leaves an agent DIALING for a finished call |
| `Limits.LateRejectionMiscounts` | src/smartdialer/allocator/allocator.py:99-105 | In the same run a late rejection charges an attempt that the reaper has charged already |
| `Limits.LogoutOfBusyAgentBreaks` | src/smartdialer/repo/agents.py:65-66 | A concrete reachable state in which logging out an agent leaves a live call without one |
| `EndToEnd.LifecycleEndsTheCall` | src/smartdialer/providers/mock_a.py:81-128 | End to end: for any duplication and reordering draws, any other calls, any order and repetition of the deliveries' arrival and any interleaving with other steps, stale appliers, pullbacks and reapers included, a call that was live when its first event was applied is, once its events have been drained, in its lifecycle's terminal state, unless a pullback or the reaper ended it first; in any case it was bridged at most once and ended once, and its borrower was charged its attempt, once |
| `Example.SomeRunTakesACallThrough` | src/smartdialer/providers/mock_a.py:81-128 | A concrete run from a reachable state meets every hypothesis of the end-to-end theorem: reordered and duplicated deliveries, another call in flight, a stale applier |
| `Example.PullbackTakesTheCall` | src/smartdialer/allocator/allocator.py:160-169 | The exception is needed: the same deliveries, all applied, leave the call CANCELLED if a pullback comes first |
| `Deduplication.EachEventIsRecordedOnce` | src/smartdialer/repo/events.py:3-9 | However often and whenever the deliveries of a call reach the webhook among the other steps of a run, the ledger ends up with a row for each of its events, under a unique id, and with nothing else about the call |
| `EndToEnd.SettledRowsWereDelivered` | src/smartdialer/worker/event_applier.py:77-86 | A row naming a call that was applied during a run was delivered to that call |
| `EndToEnd.DeliveriesHaveRows` | src/smartdialer/worker/event_applier.py:45-46 | Every delivery to a call applies a ledger row carrying the call's provider reference |
| `EndToEnd.RunKeepsIdentity` | src/smartdialer/repo/calls.py:15-29 | Over any run a call keeps its campaign, agent, borrower, attempt, key, provider and, once set, its provider reference |
| `Lifecycle.LifecycleReachesItsEnd` | src/smartdialer/worker/event_applier.py:45-74 | Whatever order and however often a dialled call's events are applied among any other steps, the call stays on its way unless a pullback or the reaper ended it; once the terminal event has been applied it is in that state, with the same exception |
| `Lifecycle.DeliveryOutcome` | src/smartdialer/worker/event_applier.py:54-74 | An event moves only its own call, and exactly where the table sends it, with ANSWERED ending in CONNECTED |
| `Lifecycle.OtherStepsKeepCall` | src/smartdialer/repo/calls.py:11-45 | A dialled call is moved by its own events, a pullback of it or the reaper, and by nothing else |
| `EventNames.MapTwiceIsMapOnce` | src/smartdialer/providers/base.py:42-55 | Mapping event names is idempotent, so a name mapped by the sender and again by the applier is safe |
| `EventNames.WhatEventsMean` | src/smartdialer/providers/base.py:44-55 | The state every event name is read as: three of the mapped names are progress and three are FAILED, and any other is the state whose name it spells in any case, or none |
| `EventNames.ParsesExactlyTheNames` | src/smartdialer/domain/enums.py:14-24 | A text is read as a state if and only if it is that state's name |
| `EventNames.SentNames` | src/smartdialer/providers/base.py:44-55 | The four mapped names the mock providers send are read as RINGING, ANSWERED, COMPLETED and FAILED |
| `Provider.CallsAreIsolated` | src/smartdialer/providers/mock_a.py:95-119 | Each call's deliveries and hold slot are what they would be if it were the only call in flight |
| `Provider.DeliveredInPairs` | src/smartdialer/providers/mock_a.py:109-119 | Before the flush a call's deliveries are its emissions in order, the two of a pair 2k, 2k+1 exchanged if and only if the second one's draw said so, and at most one emission is held |
| `Provider.FlushSendsEverything` | src/smartdialer/providers/mock_a.py:121-124 | After the final flush nothing is held and the deliveries are the emissions, as multisets |
| `Provider.LifecycleIsDelivered` | src/smartdialer/providers/mock_a.py:81-93 | A call whose lifecycle has run has had each of its events delivered at least once, and nothing else |
| `Provider.PlainLifecycleArrivesInOrder` | src/smartdialer/providers/mock_a.py:81-93 | Without duplicates and reordering a call's events arrive once each: RINGING, then ANSWERED and COMPLETED, or FAILED |
| `Provider.MockProvider.constructor` | src/smartdialer/providers/mock_a.py:23-45 | Nothing is held or sent |
| `Provider.MockProvider.Emit` | src/smartdialer/providers/mock_a.py:95-119 | One emit, with its duplicate if drawn, does to held slots and sent log what the buffer function says |
| `Provider.MockProvider.Flush` | src/smartdialer/providers/mock_a.py:121-124 | Sends the call's held event, if any |
| `Provider.MockProvider.RunLifecycle` | src/smartdialer/providers/mock_a.py:81-93 | Whatever other calls do at its waits, the call's slot and deliveries are those of its own script; undisturbed, so is the whole buffer |
| `Provider.OtherCallsAreElsewhere` | src/smartdialer/providers/mock_a.py:95-102 | An operation of another call changes nothing a call sees |
| `Provider.ResumedIsRun` | src/smartdialer/providers/mock_a.py:81-93 | Resuming a script on a buffer is running the concatenated operations |
| `Pullback.SweepBoundsRinging` | src/smartdialer/allocator/allocator.py:136-180 | If no placement completes meanwhile, the sweep leaves at most `allowed_ringing` calls ringing whatever answers, deliveries, reaps, other pullbacks and reservations interleave with its transactions |
| `Pullback.CancelIsExact` | src/smartdialer/allocator/allocator.py:160-169 | A cancellation takes effect iff the call is unanswered; then exactly one agent is freed, one attempt charged, `answered_at` was never set and every other row stays; otherwise nothing changes |
| `Accounting.SweepAccounts` | src/smartdialer/allocator/allocator.py:156-180 | Over any run a sweep is interleaved with, the number of its cancellations that take effect is the number of calls they cancel, of agents they make AVAILABLE and of attempts they charge |
| `Accounting.SweepEndsWhatItCounts` | src/smartdialer/allocator/allocator.py:156-180 | If no other sweep has picked its candidates, those it counts are exactly the candidates whose history ends with a cancellation by the pullback, and so many agents were freed and attempts charged by it |
| `Accounting.OnlyPullbacksCancel` | src/smartdialer/allocator/allocator.py:160-169 | No step but a pullback cancellation that takes effect ends a call as cancelled by the pullback |
| `Accounting.CancelAccounts` | src/smartdialer/allocator/allocator.py:160-169 | One cancellation raises the number of available agents and the sum of attempts by one each if it takes effect, and leaves both otherwise |
| `Pullback.RunSilences` | src/smartdialer/allocator/allocator.py:142-146 | A run without completed placements never sets a call ringing and silences every call it tries to cancel |
| `Counters.AgentTriggerKeepsExact` | migrations/002_counters.sql:6-49 | After any insert or state update of an agent row the counters read equal the GROUP BY counts of every campaign, missing rows included |
| `Counters.CallTriggerKeepsExact` | migrations/002_counters.sql:51-82 | The same for call rows |
| `Counters.NaiveAfterAgent` | src/smartdialer/repo/metrics.py:4-6 | How one agent write moves each GROUP BY count |
| `Counters.NaiveAfterCall` | src/smartdialer/repo/metrics.py:8-13 | How one call write moves each GROUP BY count |
| `Database.Store.constructor` | migrations/001_init.sql:25-117 | Empty tables satisfy references, unique provider references and exact counters |
| `Database.Store.WriteAgent` | migrations/002_counters.sql:47-49 | An agent write changes that row only and fires its trigger; the schema invariant survives |
| `Database.Store.WriteCall` | migrations/002_counters.sql:80-82 | A call write changes that row only and fires its trigger; the schema invariant survives |
| `Database.Store.Snapshot` | src/smartdialer/repo/metrics.py:65-112 | Both the fast and the naive snapshot return the GROUP BY counts |
| `Database.Store.Reserve` | src/smartdialer/repo/agents.py:3-9 | Succeeds iff the row is AVAILABLE at the given version, and writes that row only on success |
| `Database.Store.ForceAgent` | src/smartdialer/repo/agents.py:24-34 | Writes state, lease and current call of one agent, unconditionally |
| `Database.Store.ReleaseAgent` | src/smartdialer/repo/agents.py:59-60 | Makes one agent AVAILABLE without lease or call |
| `Database.Store.ReserveAndCreate` | src/smartdialer/allocator/allocator.py:51-75 | Statement by statement equal to transaction 1; a UNIQUE violation undoes the reservation and the claim, and is told apart from the normal ways of finding nothing |
| `Database.Store.AdvanceCall` | src/smartdialer/repo/calls.py:15-29 | The rank-guarded update: the row it returns and the table it leaves |
| `Database.Store.RejectPlacement` | src/smartdialer/allocator/allocator.py:99-105 | Equal to the rejection transaction |
| `Database.Store.RecordInitiated` | src/smartdialer/allocator/allocator.py:117-126 | Equal to transaction 3; it raises, and is rolled back, iff the row would have moved onto a provider reference already taken |
| `Database.Store.AllocateOne` | src/smartdialer/allocator/allocator.py:83-134 | Equal to the three transactions in sequence; true iff the call was placed |
| `Database.Store.AllocateBatch` | src/smartdialer/allocator/allocator.py:28-39 | n allocations interleave transaction by transaction in any order, with any tolerable interference before each: each runs its first transaction once and its last once if it created a call, and the tables, the number placed and `raised` (some transaction ran into a UNIQUE constraint) are those of the fold of its transactions in that order; at most `placed` <= n further calls ring; undisturbed and with fresh provider ids, `placed` is exactly the number of calls set ringing and of agents taken |
| `Database.Store.BeginPlacing` | src/smartdialer/allocator/allocator.py:86-89 | The first transaction of one allocation of a batch leaves the tables of transaction 1, remembers the rows of the call it created, and raises iff the idempotency key is taken |
| `Database.Store.EndPlacing` | src/smartdialer/allocator/allocator.py:95-134 | The last transaction of one allocation of a batch rejects iff the provider refused, and otherwise leaves the tables of transaction 3 and raises iff the provider reference is taken; it leaves the other allocations as they were |
| `Schedules.LastIffCreated` | src/smartdialer/allocator/allocator.py:83-94 | In a schedule of a batch an allocation has a last transaction if and only if its first one created a call |
| `Schedules.PlacedCountsTheRecording` | src/smartdialer/allocator/allocator.py:37-39 | The number a batch returns is the number of its last transactions that recorded a placed call |
| `Schedules.RaisedIffSomeTurnDid` | src/smartdialer/allocator/allocator.py:37-39 | An exception escapes a batch if and only if one of its transactions ran into a UNIQUE constraint |
| `Operations.FirstRaisesIff` | migrations/001_init.sql:89 | In a coherent world a first transaction does so if and only if it has all it needs and a call of its borrower is live |
| `Operations.LastRaisesIff` | migrations/001_init.sql:92-94 | A timely last one does so if and only if another call has the provider's reference |
| `Allocations.AllocatedCounts` | src/smartdialer/allocator/allocator.py:83-134 | A successful allocation takes one available agent and adds one ringing call; every other outcome leaves both counts |
| `Database.Store.CancelUnanswered` | src/smartdialer/allocator/allocator.py:160-169 | Equal to one pullback transaction; true iff the call was INITIATED or RINGING |
| `Database.Store.ListRingingOldest` | src/smartdialer/repo/calls.py:95-98 | Returns distinct ringing calls, as many as asked or all, oldest first, none older left out |
| `Database.Store.CancelExcessRinging` | src/smartdialer/allocator/allocator.py:136-180 | With any tolerable interference before each cancellation at most max(0, allowed) calls are left ringing; the candidates are the oldest, as many as exceed the allowance; and the number returned is exactly the number of its transactions that took effect, of attempts they charged and, while agents and calls correspond, of agents they freed; undisturbed, it is the whole excess |
| `Sweeps.ReachableIsCoherent` | src/smartdialer/allocator/allocator.py:136-146 | In every reachable state agents and calls correspond, as the sweep's count of freed agents assumes |
| `Sweeps.CancelCounts` | src/smartdialer/allocator/allocator.py:160-169 | One transaction of the sweep charges an attempt iff it takes effect and, if agents and calls correspond, frees an agent iff it does, leaving them in correspondence |
| `Database.Store.IngestEvent` | src/smartdialer/repo/events.py:3-9 | Records the event unless its (provider, id) is known |
| `Database.Store.MarkEvent` | src/smartdialer/repo/events.py:18-21 | Writes applied, anomaly and, if unset, the call of one ledger row |
| `Database.Store.FindCall` | src/smartdialer/repo/calls.py:48 | Finds the one call with the reference, or none exists |
| `Database.Store.Bridge` | src/smartdialer/worker/event_applier.py:10-21 | Equal to the bridge: CONNECTED iff the agent is DIALING for this very call |
| `Database.Store.ApplySideEffects` | src/smartdialer/worker/event_applier.py:24-42 | Equal to the side effects of the final state, which `Effects.DeliverySettles` states in the columns of agent and borrower |
| `Database.Store.ApplyOne` | src/smartdialer/worker/event_applier.py:45-74 | Equal to applying one event, unknown calls and unknown names included, as `Effects.AppliedEventSettles` states it in columns |
| `Database.Store.Drain` | src/smartdialer/worker/event_applier.py:77-86 | Equal to applying the fetched events in order and giving up on aged unknown ones |
| `Drains.ApplyOneIsAStep` | src/smartdialer/worker/event_applier.py:45-74 | Applying one unapplied event in a coherent state is an enabled step of the protocol that takes the incoming state from the event's row, or changes nothing |
| `Drains.DrainIsARun` | src/smartdialer/worker/event_applier.py:77-86 | A whole drain of fetched events, from a reachable state, ends in the tables of a reachable state |
| `Database.Store.FailOrphanCalls` | src/smartdialer/worker/reaper.py:38-46 | Fails exactly the orphans and returns each once |
| `Database.Store.FreeOrphans` | src/smartdialer/worker/reaper.py:73-77 | Frees the agents and reschedules the borrowers of the orphans, as the fold over the list says |
| `Database.Store.SweepLeases` | src/smartdialer/worker/reaper.py:79-81 | Equal to the three lease sweeps in order, whose effect on every row `Effects.ReapSettles` states |
| `Database.Store.Reap` | src/smartdialer/worker/reaper.py:69-85 | Equal to the whole reap transaction on the orphans of that instant, as `Effects.ReapSettles` states it in columns |
| `Ledger.LookupFinds` | migrations/001_init.sql:92-94 | The unique index makes the call found by a reference the only one |
| `Reservation.EachVersionIsWonOnce` | src/smartdialer/repo/agents.py:3-9 | Over any interleaving of reserve, force and reap statements each (agent, version) is won at most once |
| `Reservation.WinMeansUntouchedSinceRead` | src/smartdialer/repo/agents.py:3-17 | A successful compare-and-swap means the row was never written since it was read: no ABA |
| `Reservation.LossMeansOvertaken` | src/smartdialer/repo/agents.py:47-50 | For a version read from an available row the swap succeeds if and only if the row is still as it was read |
| `Reservation.EveryWriteRaisesTheVersion` | src/smartdialer/worker/reaper.py:29-56 | Every statement that writes an agent row raises its version by one |
| `Safety.SafetyController.constructor` | src/smartdialer/config.py:15-19 | Each of the two rates is the lesser of the configured one and its absolute limit |
| `Safety.SafetyController.Consult` | src/smartdialer/safety/rules.py:4-61 | A rule's cap, with the abandon budget's side effect on the cooldown and no other |
| `Safety.SafetyController.Evaluate` | src/smartdialer/safety/controller.py:36-50 | For any order of the rules: approved is max(0, least cap) with caps taken at the cooldown the tick began with, the reason is OK iff nothing was cut and otherwise the first rule attaining the minimum, and the cooldown left is as specified |
| `Safety.LeastCapIsMinimum` | src/smartdialer/safety/controller.py:41-49 | The folded cap is below n and every cap and equal to one of them |
| `Safety.OrderIsIrrelevant` | src/smartdialer/safety/rules.py:64-65 | Any reordering of RULES approves the same number although s5 writes the cooldown s2 reads |
| `Safety.ApprovalIsTheMinimum` | src/smartdialer/safety/controller.py:39-49 | For n >= 0 the approved number is exactly the minimum of n and all eight caps |
| `Safety.ApprovalIsTheLeastCap` | src/smartdialer/safety/rules.py:4-61 | In the snapshot's own numbers the approved number is the least of the request and the eight caps: available - (reserved + dialing) or 0 for too few samples, a cooldown or a breach, the share of the best provider's health, and floor(staffed * ratio) less inflight and ringing among them |
| `Safety.ReasonIsTheFirstRule` | src/smartdialer/safety/rules.py:64-65 | With the rules in the source's order, the reason given is the first rule whose cap is the approved number |
| `Safety.ApprovalFitsTheCeiling` | src/smartdialer/safety/rules.py:43-61 | A positive approval plus agent-bound in-flight plus ringing is at most floor(staffed * ratio), and with ringing at most the hard cap, on an active campaign with an agent available |
| `Safety.BreachForcesProgressive` | src/smartdialer/safety/rules.py:35-40 | After an abandon rate above the limit at tick t every tick t..t+N-1 approves at most max(0, available - (reserved + dialing)), for any later snapshots and re-breaches |
| `Safety.CooldownEndsOnTime` | src/smartdialer/safety/controller.py:14-19 | Without another breach the cooldown is over N ticks after the last one |
| `Pacing.RequestIsTheLargestThatFits` | src/smartdialer/pacing/predictive.py:17-25 | For any rate p, k more calls satisfy p*(ringing+k) <= supply if and only if k is at most the request |
| `Pacing.RequestCoversItsAnswers` | src/smartdialer/pacing/predictive.py:13-25 | The same in the snapshot's own numbers: with p the upper bound held between 0.01 and 1, p*(ringing+k) <= available + connected*setup/talk if and only if k is at most the request |
| `Pacing.BoundsAreTheEdges` | src/smartdialer/pacing/estimators.py:5-15 | The Wilson interval ends exactly where the observed rate is z standard errors away, n*(phat-q)^2 = z^2*q*(1-q), on either side of it; only the lower end is cut off, at 0.01 |
| `Pacing.NoSampleMeansCertainty` | src/smartdialer/pacing/estimators.py:8-9 | Without a sample pacing asks for k more calls exactly if the ringing ones and they fit the supply one for one |
| `Pacing.RequestIsAntitone` | src/smartdialer/pacing/predictive.py:13-25 | A higher assumed answer rate never asks for more calls |
| `Pacing.UpperBoundCoversThePoint` | src/smartdialer/pacing/estimators.py:5-15 | The Wilson upper bound lies between the observed rate and 1 for every sample |
| `Pacing.UpperBoundIsCautious` | src/smartdialer/pacing/predictive.py:13-25 | Pacing on the upper bound never asks for more than pacing on the equally clamped observed rate |
| `PacingLoop.Tick` | src/smartdialer/worker/pacing_loop.py:7-32 | One tick requests and approves the specified numbers and leaves at most `allowed_ringing` calls ringing, whatever the request and whatever tolerable commits fall between its snapshot, its placements and its cancellations; it either runs a batch of the approved number, whose tables and results are those of its schedule, or sweeps the excess, whose tables and count are those of its cancellations, or changes nothing |
| `PacingLoop.RequestCoversTheSnapshot` | src/smartdialer/pacing/predictive.py:13-25 | The request of a tick over the counts of its snapshot: n more calls exactly if their answers and the ringing ones' are covered by the idle agents and the connected calls coming free |
| `PacingLoop.SnapshotCountsTheRows` | src/smartdialer/repo/metrics.py:4-13 | These counts are the numbers of the campaign's agents in each state and of its INITIATED or RINGING and CONNECTED calls |
| `PacingLoop.RulesJudgeTheSnapshot` | src/smartdialer/repo/metrics.py:66-83 | The safety rules are given these counts and the statistics unchanged |
| `PacingLoop.AllowanceIsWhatIsLeft` | src/smartdialer/worker/pacing_loop.py:24-25 | `allowed_ringing` is max(0, floor(staffed * ratio) - (reserved + dialing)) |
| `Operations.TickIsARun` | src/smartdialer/worker/pacing_loop.py:7-32 | A tick, from a reachable state, with timely workers and others that keep to the protocol, ends in the tables of a reachable state, agents and calls in correspondence |
| `Operations.BatchIsARun` | src/smartdialer/allocator/allocator.py:28-39 | A batch whose last transactions are timely is a run of the protocol that reaches exactly the tables of its schedule |
| `Operations.UndisturbedBatchIsCarried` | src/smartdialer/allocator/allocator.py:83-90 | Undisturbed and before its reserve leases pass, every schedule of a batch is such a run |
| `Operations.SweepIsARun` | src/smartdialer/allocator/allocator.py:156-180 | From the tables of a reachable state, with others that keep to the protocol, every prefix of a pullback sweep ends in the tables of a reachable state |
| `Operations.ReapIsARun` | src/smartdialer/worker/reaper.py:69-85 | A whole reap, from a reachable state, ends in the tables of a reachable state |
| `PacingLoop.ApprovalExcludesPullback` | src/smartdialer/worker/pacing_loop.py:24-28 | A positive approval still fits under `allowed_ringing`, so the same tick has nothing to pull back |
| `PacingLoop.RingingIsChargedTwice` | src/smartdialer/safety/rules.py:50-54 | In every reachable state ringing equals dialing in the snapshot, so a positive approval satisfies approved + reserved + 2*ringing <= ceiling |
| `Breaker.CircuitBreaker.constructor` | src/smartdialer/providers/breaker.py:7-18 | A new breaker is closed and has seen nothing |
| `Breaker.CircuitBreaker.Trim` | src/smartdialer/providers/breaker.py:20-22 | Drops leading outcomes older than the window |
| `Breaker.TrimKeepsTheWindow` | src/smartdialer/providers/breaker.py:20-22 | On a clock that does not run backwards exactly the outcomes inside the window are kept, in order |
| `Breaker.CircuitBreaker.Trip` | src/smartdialer/providers/breaker.py:24-27 | Opens the breaker at the given instant with no probes counted |
| `Breaker.CircuitBreaker.Record` | src/smartdialer/providers/breaker.py:29-46 | One recorded outcome takes the breaker to the specified view; `Breaker.ClosedBreakerOpensIff` and `Breaker.HalfOpenClosesAfterAllProbes` say when that opens or closes it |
| `Breaker.ClosedBreakerOpensIff` | src/smartdialer/providers/breaker.py:29-46 | Over any run on a clock that does not go back, a record opens a closed breaker if and only if, of the outcomes recorded within the window since it last closed, there are at least `min_calls` and the failures are at least the threshold's share of them |
| `Breaker.ErrorsCountTheFailures` | src/smartdialer/providers/breaker.py:44 | The error count of a window is the number of its outcomes that are failures |
| `Breaker.RefusesIffCooling` | src/smartdialer/providers/breaker.py:48-57 | In every reachable state a call is refused if and only if the breaker is open and its cooldown has not passed; half-open, a probe is always left |
| `Breaker.CircuitBreaker.Allow` | src/smartdialer/providers/breaker.py:48-57 | One question is answered, and moves the breaker, as specified |
| `Breaker.ClosedMeansQuiet` | src/smartdialer/providers/breaker.py:43-46 | In every reachable state a closed breaker has fewer than `min_calls` windowed outcomes or an error rate below the threshold |
| `Breaker.OpenLastsItsCooldown` | src/smartdialer/providers/breaker.py:48-54 | An open breaker stays open since the same instant exactly until it is asked at or after `opened_at + cooldown_s` |
| `Breaker.OpenedByARecord` | src/smartdialer/providers/breaker.py:34-46 | `opened_at` is the time of a recorded outcome that breached the threshold or failed a probe, and the breaker has been open ever since |
| `Breaker.ProbesCountTheTrial` | src/smartdialer/providers/breaker.py:34-41 | While half-open, `probes` counts the outcomes since it was entered, all of them successes and fewer than `half_open_probes` |
| `Breaker.HalfOpenClosesAfterAllProbes` | src/smartdialer/providers/breaker.py:34-41 | Half-open closes if and only if the `half_open_probes`-th consecutive success since entry is recorded, and reopens if and only if a failure is |
| `Clock.VirtualClock.constructor` | src/smartdialer/clock.py:39-43 | Starts at the given time with nobody waiting |
| `Clock.VirtualClock.Sleep` | src/smartdialer/clock.py:48-52 | Registers one waiter at now + seconds under a fresh number |
| `Clock.VirtualClock.WakeDue` | src/smartdialer/clock.py:109-112 | Pops everyone due, in order, and nobody else |
| `Clock.VirtualClock.AdvanceToNext` | src/smartdialer/clock.py:107-114 | Jumps to the least deadline and wakes everyone due by it; does nothing iff nobody waits |
| `Clock.VirtualClock.RunUntil` | src/smartdialer/clock.py:116-118 | Terminates, if its tasks register finitely many further sleeps, in the specified final state after the specified wake-ups |
| `Clock.RunUntilIsARun` | src/smartdialer/clock.py:116-118 | That state and those wake-ups are those of a run of advances and non-negative sleeps resumed from any punctual history, so newcomers too are woken at their deadline, in order, and nobody is lost |
| `Clock.AdvanceShrinks` | src/smartdialer/clock.py:109-112 | With no new sleepers each advance strictly shrinks the queue |
| `Clock.SleepIsSafeIffNotNegative` | src/smartdialer/clock.py:48-52 | A sleep leaves no deadline behind now if and only if it is not negative |
| `Clock.WokenOnTime` | src/smartdialer/clock.py:107-112 | An advance wakes exactly the sleepers whose deadline equals the new time, in registration order, and leaves no deadline behind it |
| `Clock.TimeGoesBackIffOverdue` | src/smartdialer/clock.py:107-108 | An advance moves time back if and only if some deadline was already behind now |
| `Clock.RunAt` | src/smartdialer/clock.py:48-114 | After any sequence of non-negative sleeps and advances everyone woken was woken exactly at their deadline, in (deadline, registration) order, everyone waiting comes later, and nobody is lost |
| `Clock.TimeNeverGoesBack` | src/smartdialer/clock.py:107-108 | Over such a sequence time never goes back and no wake-up is undone |
| `Clock.SleeperGetsItsDelay` | src/smartdialer/clock.py:48-52 | Over any run, whoever goes to sleep is woken at the time of that moment plus the delay, or still waits for it |
| `Clock.RunUntilStopsAtTheEnd` | src/smartdialer/clock.py:116-118 | Whatever non-negative sleeps its tasks register on the way, `run_until` never turns time back, ends at or past the end or with nobody waiting, and leaves nobody overdue |
| `Clock.RunUntilWakesWhoIsDue` | src/smartdialer/clock.py:116-118 | Of those waiting at the start it wakes exactly the ones due by the time it stops at, and it does not run past a deadline of theirs at or beyond the end |

## Left out

- PostgreSQL itself: SQL parsing, the connection pool, deadlock detection and the bounded retries. A
  transaction either happens or does not; a given-up retry is a step not taken, or a crash of that
  placement.
- A drain is modelled event by event, each with its own stale read. In the source it is one transaction
  without savepoints: a name that parses to no state fails before any write and alone, as here, but a
  database error undoes the whole drain, which then counts as a drain not taken.
- `ORDER BY` in the candidate and claim queries: any eligible row may be picked. The pullback's order is kept.
- The `incoming` state of a delivery step is arbitrary, a superset of what names can say; `EndToEnd` ties it
  to the row's name. Upper-casing is ASCII only.
- Columns nothing decides on: lease owner, lock owner, update and receipt times, priority, phone, external
  references, payloads. The branches for a NULL `calls.agent_id`: CREATE always writes one.
- The mock provider's clock waits, outages and failure draws: accepting or refusing is arbitrary. Event times
  and raw names are not carried.
- The registry, the real telecom provider, HTTP routes, webhook payload parsing, dashboard, CLI, logging,
  charts, the decisions table, and leader election by advisory lock.
- Floating-point rounding: reals are exact, and the square root is any non-negative root passed in.
- Resolved-call statistics (setup and talk averages, abandon rate) are inputs of the snapshot.
- Progressive pacing, `AsymmetricEWMA`, `WilsonLowerBound` and `SetupTimeEstimator`: not part of the running
  predictive pipeline, or too small to matter.
- The claim that the overdial ratio never exceeds 2.0, since the ceiling is itself configurable, and that the
  Wilson lower bound is below the upper, since the 0.01 floor can lift it above.
- A bound on half-open probes let through: `health()` asks freely and only recorded outcomes are counted.
- Clock.VirtualClock.AdvanceToNext: cancelled futures, `critical()` and the real-time wait for a first
  sleeper are not modelled.
- Clock.VirtualClock.RunUntil: tasks register finitely many sleeps, without which it need not end.
- Database.Store.AllocateOne: nothing happens between its transactions there; `AllocateBatch` interleaves.
- Database.Store.AllocateBatch: after a UNIQUE violation has escaped the other allocations still finish, as
  tasks do; the number placed is then known to nobody.
- Breaker.ClosedMeansQuiet: assumes `min_calls` of at least 1, so that an empty window is never judged.
