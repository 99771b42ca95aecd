/** The repositories, the allocator, the event applier and the reaper as they run: statements that
    update rows in place, composed into transactions, each shown equal to its function on the tables.
    Every write of an agent or a call fires the counter triggers. */
module Database {
  import opened Domain
  import opened Rows
  import opened Transactions
  import opened Counters
  import opened World
  import opened Ledger
  import EventNames
  import opened Allocations
  import opened Schedules
  import opened Sweeps
  import Pullback
  import Recovery
  import Sizes

  class Store {
    var agents: map<nat, Agent>
    var borrowers: map<nat, Borrower>
    var calls: map<nat, Call>
    var events: map<nat, Event>
    var counters: map<nat, Counts>

    function Tables(): Db
      reads this
    {
      Db(agents, borrowers, calls, events)
    }

    /** What the schema enforces: references, the unique provider reference, and the counters. */
    ghost predicate Valid()
      reads this
    {
      ForeignKeys(Tables()) && RefsUnique(calls) && Exact(counters, agents, calls)
    }

    constructor ()
      ensures Valid() && Tables() == EMPTY.db
    {
      agents, borrowers, calls, events, counters := map[], map[], map[], map[], map[];
    }

    // ---- row writes and their triggers

    method WriteAgent(a: nat, row: Agent)
      requires Valid() && (a in agents ==> agents[a].campaign == row.campaign)
      modifies this
      ensures Valid() && Tables() == old(Tables()).(agents := old(agents)[a := row])
    {
      AgentTriggerKeepsExact(counters, agents, calls, a, row);
      counters := if a in agents then AgentUpdated(counters, agents[a], row) else AgentInserted(counters, row);
      agents := agents[a := row];
    }

    method WriteCall(c: nat, row: Call)
      requires Valid() && (c in calls ==> calls[c].campaign == row.campaign)
      requires row.agent in agents && row.borrower in borrowers && RefsUnique(calls[c := row])
      modifies this
      ensures Valid() && Tables() == old(Tables()).(calls := old(calls)[c := row])
    {
      CallTriggerKeepsExact(counters, agents, calls, c, row);
      counters := if c in calls then CallUpdated(counters, calls[c], row) else CallInserted(counters, row);
      calls := calls[c := row];
    }

    method WriteBorrower(b: nat, row: Borrower)
      requires Valid()
      modifies this
      ensures Valid() && Tables() == old(Tables()).(borrowers := old(borrowers)[b := row])
    {
      borrowers := borrowers[b := row];
    }

    method WriteEvent(e: nat, row: Event)
      requires Valid()
      modifies this
      ensures Valid() && Tables() == old(Tables()).(events := old(events)[e := row])
    {
      events := events[e := row];
    }

    // ---- repo/metrics.py

    /** Both forms of the pacing snapshot return the row counts. */
    method Snapshot(campaign: nat, fast: bool) returns (k: Counts)
      requires Valid()
      ensures k == Naive(agents, calls, campaign)
    {
      if fast {
        k := Fast(counters, campaign);
      } else {
        k := Naive(agents, calls, campaign);
      }
    }

    // ---- repo/agents.py

    method Reserve(a: nat, version: nat, lease: Time) returns (won: bool)
      requires Valid() && a in agents
      modifies this
      ensures Valid() && won == ReserveCas(old(agents)[a], version, lease).Some?
      ensures Tables() ==
        if won then old(Tables()).(agents := old(agents)[a := ReserveCas(old(agents)[a], version, lease).value])
        else old(Tables())
    {
      var row := ReserveCas(agents[a], version, lease);
      won := row.Some?;
      if won {
        WriteAgent(a, row.value);
      }
    }

    method ForceAgent(a: nat, state: AgentState, lease: Option<Time>, call: Option<nat>)
      requires Valid() && a in agents
      modifies this
      ensures Valid()
      ensures Tables() == old(Tables()).(agents := old(agents)[a := ForceState(old(agents)[a], state, lease, call)])
    {
      WriteAgent(a, ForceState(agents[a], state, lease, call));
    }

    method ReleaseAgent(a: nat)
      requires Valid() && a in agents
      modifies this
      ensures Valid() && Tables() == old(Tables()).(agents := old(agents)[a := Release(old(agents)[a])])
    {
      ForceAgent(a, AgentState.Available, None, None);
    }

    // ---- allocator.py

    /** Step 1. A UNIQUE violation on the idempotency key rolls back the reservation and the claim. */
    method ReserveAndCreate(campaign: nat, pick: Pick, lease: Time, wall: Time)
        returns (created: Option<nat>, aborted: bool)
      requires Valid() && PickOk(Tables(), campaign, pick, wall)
      modifies this
      ensures Valid() && Tables() == TxReserve(old(Tables()), campaign, pick, lease, wall).0
      ensures created == TxReserve(old(Tables()), campaign, pick, lease, wall).1
      ensures aborted == KeyAborts(old(Tables()), campaign, pick, lease, wall)
    {
      hide Exact, RefsUnique, ForeignKeys;
      created, aborted := None, false;
      if pick.agent.None? {
        return;
      }
      var (savedAgents, savedBorrowers, savedCounters) := (agents, borrowers, counters);
      var a := pick.agent.value;
      var won := Reserve(a, pick.version, lease);
      if !won {
        return;
      }
      if pick.borrower.None? {
        ReleaseAgent(a);
        return;
      }
      var b := pick.borrower.value;
      WriteBorrower(b, Claim(borrowers[b], lease));
      if pick.provider.None? {
        ReleaseAgent(a);
        WriteBorrower(b, Unclaim(borrowers[b]));
        return;
      }
      var call := NewCall(campaign, a, b, pick.provider.value, borrowers[b].attempts + 1, lease);
      if KeyTaken(Tables(), call.key) {
        agents, borrowers, counters := savedAgents, savedBorrowers, savedCounters;
        aborted := true;
        return;
      }
      NewReferenceIsUnique(calls, pick.call, call);
      WriteCall(pick.call, call);
      created := Some(pick.call);
    }

    method AdvanceCall(c: nat, state: CallState, pcid: Option<string>, lease: Option<Time>,
                       failure: Option<string>, wall: Time) returns (row: Option<Call>)
      requires Valid() && c in calls
      requires pcid.Some? ==> calls[c].pcid == pcid || !RefTaken(Tables(), c, calls[c].provider, pcid.value)
      modifies this
      ensures Valid() && row == Advance(old(calls)[c], state, pcid, lease, failure, wall)
      ensures Tables() == if row.Some? then old(Tables()).(calls := old(calls)[c := row.value]) else old(Tables())
    {
      row := Advance(calls[c], state, pcid, lease, failure, wall);
      if row.Some? {
        AdvanceKeepsRefs(Tables(), c, row.value);
        WriteCall(c, row.value);
      }
    }

    /** The provider said no. */
    method RejectPlacement(c: nat, a: nat, b: nat, wall: Time)
      requires Valid() && c in calls && a in agents && b in borrowers
      modifies this
      ensures Valid() && Tables() == TxReject(old(Tables()), c, a, b, wall)
    {
      var _ := AdvanceCall(c, CallState.Failed, None, None, Some("PROVIDER_REJECTED"), wall);
      ReleaseAgent(a);
      WriteBorrower(b, Reschedule(borrowers[b], 60.0, wall));
    }

    /** Step 3. The result of the guarded update is not looked at. False: the provider reference is taken,
        and everything is rolled back. */
    method RecordInitiated(c: nat, a: nat, pcid: string, dialLease: Time, wall: Time) returns (recorded: bool)
      requires Valid() && c in calls && a in agents
      modifies this
      ensures Valid() && Tables() == TxInitiate(old(Tables()), c, a, pcid, dialLease, wall)
      ensures recorded == !ReferenceAborts(old(Tables()), c, pcid)
    {
      var row := Advance(calls[c], CallState.Initiated, Some(pcid), Some(dialLease), None, wall);
      if row.Some? && row.value.pcid == Some(pcid) && RefTaken(Tables(), c, calls[c].provider, pcid) {
        return false;
      }
      if row.Some? {
        AdvanceKeepsRefs(Tables(), c, row.value);
        WriteCall(c, row.value);
      }
      ForceAgent(a, AgentState.Dialing, Some(dialLease), Some(c));
      return true;
    }

    /** `_allocate_one`, alone: reserve and create, ask the provider, record its answer (None: it refused). */
    method AllocateOne(campaign: nat, pick: Pick, lease: Time, dialLease: Time, answer: Option<string>, wall: Time)
        returns (ok: bool)
      requires Valid() && PickOk(Tables(), campaign, pick, wall)
      modifies this
      ensures Valid() && (Tables(), ok) == Allocated(old(Tables()), campaign, pick, lease, dialLease, answer, wall)
    {
      hide Exact, RefsUnique, ForeignKeys, PickOk, TxReject, TxInitiate;
      ghost var db := Tables();
      var created, _ := ReserveAndCreate(campaign, pick, lease, wall);
      if created.None? {
        return false;
      }
      var c := created.value;
      CreatedCallHasItsRows(db, campaign, pick, lease, wall);
      if answer.None? {
        RejectPlacement(c, calls[c].agent, calls[c].borrower, wall);
        return false;
      }
      ok := RecordInitiated(c, calls[c].agent, answer.value, dialLease, wall);
    }

    /** The i-th allocation of a batch runs its first transaction. */
    method BeginPlacing(campaign: nat, pick: Pick, lease: Time, wall: Time, i: nat, placing: map<nat, Placing>,
                        ghost start: Db, ghost placed: nat, ghost quiet: bool)
        returns (now: map<nat, Placing>, aborted: bool)
      requires Valid() && PickOk(Tables(), campaign, pick, wall) && i !in placing
      requires BatchOk(start, Tables(), campaign, placing, placed, quiet)
      modifies this
      ensures Valid() && BatchOk(start, Tables(), campaign, now, placed, quiet)
      ensures var (made, created) := TxReserve(old(Tables()), campaign, pick, lease, wall);
        && Tables() == made && (created.Some? ==> created.value in made.calls)
        && now == if created.Some? then placing[i := PlacingOf(made, created.value)] else placing
      ensures aborted == KeyAborts(old(Tables()), campaign, pick, lease, wall)
    {
      hide Exact, RefsUnique, ForeignKeys, PickOk, TxReserve, BatchOk, KeyAborts;
      FirstTransaction(start, Tables(), campaign, pick, lease, wall, placing, i, placed, quiet);
      var created;
      created, aborted := ReserveAndCreate(campaign, pick, lease, wall);
      now := if created.Some? then placing[i := PlacingOf(Tables(), created.value)] else placing;
    }

    /** It has its answer, and runs its last. */
    method EndPlacing(campaign: nat, answer: Option<string>, dialLease: Time, wall: Time, i: nat,
                      placing: map<nat, Placing>, ghost start: Db, ghost placed: nat, ghost quiet: bool)
        returns (now: map<nat, Placing>, outcome: Outcome)
      requires Valid() && i in placing && BatchOk(start, Tables(), campaign, placing, placed, quiet)
      requires quiet && answer.Some? ==> UnusedRef(Tables(), answer.value)
      modifies this
      ensures Valid() && now == placing - {i}
      ensures BatchOk(start, Tables(), campaign, now, if outcome.Placed? then placed + 1 else placed, quiet)
      ensures var (db, p) := (old(Tables()), placing[i]);
        && p.call in db.calls && p.agent in db.agents && p.borrower in db.borrowers
        && if answer.None? then Tables() == TxReject(db, p.call, p.agent, p.borrower, wall) && outcome == Refused
           else
             && Tables() == TxInitiate(db, p.call, p.agent, answer.value, dialLease, wall)
             && outcome == if ReferenceAborts(db, p.call, answer.value) then Raised else Placed
    {
      hide Exact, RefsUnique, ForeignKeys, TxReject, TxInitiate, BatchOk, ReferenceAborts, UnusedRef;
      var p := placing[i];
      LastTransaction(start, Tables(), campaign, p, answer, dialLease, wall, placing, i, placed, quiet);
      now := placing - {i};
      if answer.None? {
        RejectPlacement(p.call, p.agent, p.borrower, wall);
        outcome := Refused;
      } else {
        var recorded := RecordInitiated(p.call, p.agent, answer.value, dialLease, wall);
        outcome := if recorded then Placed else Raised;
      }
    }

    /** Allocation i's first transaction as the next turn of the schedule. */
    method FirstOf(i: nat, k: nat, plan: Plan, placing: map<nat, Placing>, raised: bool, ghost before: Db,
                   ghost start: Db, ghost turns: seq<Turn>, ghost n: nat, ghost waiting: set<nat>, ghost placed: nat,
                   ghost quiet: bool)
        returns (now: map<nat, Placing>, raisedNow: bool)
      requires Valid() && Tables() == plan.env(k, before) && k == |turns| && i in waiting && i !in placing
      requires PickOk(Tables(), plan.campaign, plan.choose(k, Tables()), plan.wall)
      requires BatchOk(start, Tables(), plan.campaign, placing, placed, quiet)
      requires ScheduleAt(start, turns, n, plan, waiting, Batch(before, placing, placed, raised))
      modifies this
      ensures Valid() && BatchOk(start, Tables(), plan.campaign, now, placed, quiet)
      ensures now.Keys == placing.Keys || now.Keys == placing.Keys + {i}
      ensures ScheduleAt(start, turns + [First(i)], n, plan, waiting - {i}, Batch(Tables(), now, placed, raisedNow))
    {
      hide Exact, RefsUnique, ForeignKeys, PickOk, TxReserve, BatchOk, KeyAborts, ScheduleAt;
      ghost var b := Batch(before, placing, placed, raised);
      FirstTurn(start, turns, n, plan, waiting, b, i);
      BegunKeys(b, Tables(), k, i, plan);
      var aborted;
      now, aborted := BeginPlacing(plan.campaign, plan.choose(k, Tables()), plan.lease, plan.wall, i, placing,
                                   start, placed, quiet);
      raisedNow := raised || aborted;
    }

    /** Allocation i's last transaction as the next turn of the schedule. */
    method LastOf(i: nat, k: nat, plan: Plan, placing: map<nat, Placing>, placed: nat, raised: bool, ghost before: Db,
                  ghost start: Db, ghost turns: seq<Turn>, ghost n: nat, ghost waiting: set<nat>, ghost quiet: bool)
        returns (now: map<nat, Placing>, placedNow: nat, raisedNow: bool)
      requires Valid() && Tables() == plan.env(k, before) && k == |turns| && i in placing
      requires quiet ==> FreshAnswers(plan)
      requires BatchOk(start, Tables(), plan.campaign, placing, placed, quiet)
      requires ScheduleAt(start, turns, n, plan, waiting, Batch(before, placing, placed, raised))
      modifies this
      ensures Valid() && BatchOk(start, Tables(), plan.campaign, now, placedNow, quiet)
      ensures now == placing - {i} && placed <= placedNow <= placed + 1
      ensures ScheduleAt(start, turns + [Last(i)], n, plan, waiting, Batch(Tables(), now, placedNow, raisedNow))
    {
      hide Exact, RefsUnique, ForeignKeys, TxReject, TxInitiate, BatchOk, ReferenceAborts, UnusedRef, ScheduleAt;
      BatchIsAddressed(start, Tables(), plan.campaign, placing, placed, quiet);
      LastTurn(start, turns, n, plan, waiting, Batch(before, placing, placed, raised), i);
      var ended;
      now, ended := EndPlacing(plan.campaign, plan.answer(k, Tables()), plan.dialLease, plan.wall, i, placing,
                               start, placed, quiet);
      placedNow, raisedNow := if ended.Placed? then placed + 1 else placed, raised || ended.Raised?;
    }

    /** Between two transactions of a batch the others commit. */
    method Gap(k: nat, plan: Plan, ghost start: Db, ghost placing: map<nat, Placing>, ghost placed: nat,
               ghost quiet: bool)
      requires Valid() && Fair(plan) && (quiet ==> Undisturbed(plan.env))
      requires BatchOk(start, Tables(), plan.campaign, placing, placed, quiet)
      modifies this
      ensures Valid() && Tables() == plan.env(k, old(Tables()))
      ensures BatchOk(start, Tables(), plan.campaign, placing, placed, quiet)
      ensures PickOk(Tables(), plan.campaign, plan.choose(k, Tables()), plan.wall)
    {
      hide Exact, RefsUnique, ForeignKeys, PickOk, BatchOk;
      ghost var before := Tables();
      assert Tolerable(before, plan.env(k, before));
      Interrupt(plan.env, k);
      GapKeepsBatch(start, before, Tables(), plan.campaign, placing, placed, quiet);
    }

    /** `allocate_batch`: n allocations at once. Their transactions interleave in any order, which `turns`
        records, each behind whatever the rest of the system has committed; the tables and both results are
        those of the fold of that schedule. `placed` counts the last transactions that recorded a call;
        `raised` says that one of the transactions ran into a UNIQUE constraint, whose exception escapes from
        the batch. At most `placed` further calls ring; undisturbed, and if providers never reuse a call id,
        `placed` is exactly the number of calls set ringing and of agents taken. */
    method AllocateBatch(n: nat, plan: Plan) returns (placed: nat, raised: bool, ghost turns: seq<Turn>)
      requires Valid() && Fair(plan)
      modifies this
      ensures Valid() && IsSchedule(old(Tables()), turns, n, plan)
      ensures Batched(old(Tables()), turns, plan) == Batch(Tables(), map[], placed, raised) && placed <= n
      ensures |CallsRinging(calls, plan.campaign)| <= |CallsRinging(old(calls), plan.campaign)| + placed
      ensures Undisturbed(plan.env) && FreshAnswers(plan) ==>
        && |CallsRinging(calls, plan.campaign)| == |CallsRinging(old(calls), plan.campaign)| + placed
        && |AgentsAt(agents, plan.campaign, AgentState.Available)|
           == |AgentsAt(old(agents), plan.campaign, AgentState.Available)| - placed
    {
      hide Valid, PickOk, CallsRinging, AgentsAt, TxReserve, TxReject, TxInitiate, BatchOk;
      hide KeyAborts, ReferenceAborts, UnusedRef, ScheduleAt, IsSchedule, Batched, Room;
      hide Fair, FreshAnswers, Undisturbed;
      ghost var start := Tables();
      ghost var quiet := Undisturbed(plan.env) && FreshAnswers(plan);
      placed, raised, turns := 0, false, [];
      var waiting := Sizes.UpTo(n);
      var placing: map<nat, Placing> := map[];
      var k := 0;
      BatchBegins(start, plan.campaign, quiet);
      ScheduleStarts(start, n, plan);
      RoomAtFirst(n);
      assert placing.Keys == {};
      while waiting + placing.Keys != {}
        invariant Valid() && waiting !! placing.Keys && Room(n, waiting, placing.Keys, placed) && k == |turns|
        invariant BatchOk(start, Tables(), plan.campaign, placing, placed, quiet)
        invariant ScheduleAt(start, turns, n, plan, waiting, Batch(Tables(), placing, placed, raised))
        decreases 2 * |waiting| + |placing.Keys|
      {
        var i :| i in waiting + placing.Keys;
        ghost var before := Tables();
        Gap(k, plan, start, placing, placed, quiet);
        if i in waiting {
          var now;
          now, raised := FirstOf(i, k, plan, placing, raised, before, start, turns, n, waiting, placed, quiet);
          FirstFits(n, waiting, placing.Keys, placed, i, now.Keys);
          waiting, placing, turns := waiting - {i}, now, turns + [First(i)];
        } else {
          var now, placedNow;
          now, placedNow, raised :=
            LastOf(i, k, plan, placing, placed, raised, before, start, turns, n, waiting, quiet);
          LastFits(n, waiting, placing.Keys, placed, i, placedNow);
          placing, placed, turns := now, placedNow, turns + [Last(i)];
        }
        k := k + 1;
      }
      RoomMeansFewPlaced(n, waiting, placing.Keys, placed);
      BatchIsOver(start, Tables(), plan.campaign, placing, placed, quiet);
      ScheduleEnds(start, turns, n, plan, Batch(Tables(), placing, placed, raised));
    }

    /** One candidate of the pullback sweep. */
    method CancelUnanswered(c: nat, wall: Time) returns (cancelled: bool)
      requires Valid() && c in calls
      modifies this
      ensures Valid() && Tables() == TxCancel(old(Tables()), c, wall) && cancelled == Unanswered(old(calls)[c])
    {
      var row := CancelIfNotAnswered(calls[c], "SAFETY_PULLBACK", wall);
      cancelled := row.Some?;
      if cancelled {
        var k := row.value;
        OneRowKeepsRefs(calls, c, k);
        WriteCall(c, k);
        ReleaseAgent(k.agent);
        WriteBorrower(k.borrower, OnCallTerminal(borrowers[k.borrower], CallState.Cancelled, 30.0, wall));
      }
    }

    // ---- event_applier.py

    method IngestEvent(e: nat, provider: string, eventId: string, pcid: Option<string>, etype: string)
        returns (recorded: bool)
      requires Valid() && e !in events
      modifies this
      ensures Valid() && Tables() == TxIngest(old(Tables()), e, provider, eventId, pcid, etype)
      ensures recorded == !EventTaken(old(Tables()), provider, eventId)
    {
      recorded := !EventTaken(Tables(), provider, eventId);
      if recorded {
        WriteEvent(e, Event(provider, eventId, pcid, etype, false, None, None));
      }
    }

    method MarkEvent(e: nat, applied: bool, anomaly: Option<Anomaly>, call: Option<nat>)
      requires Valid() && e in events
      modifies this
      ensures Valid() && Tables() == Mark(old(Tables()), e, applied, anomaly, call)
    {
      var ev := events[e];
      WriteEvent(e, ev.(applied := applied, anomaly := anomaly, call := Coalesce(ev.call, call)));
    }

    method FindCall(provider: string, pcid: Option<string>) returns (c: Option<nat>)
      requires Valid()
      ensures c == Lookup(Tables(), provider, pcid)
      ensures c.Some? ==> pcid.Some? && HasRef(Tables(), c.value, provider, pcid.value)
    {
      c := None;
      if pcid.Some? {
        if d :| d in calls && calls[d].provider == provider && calls[d].pcid == pcid {
          LookupFinds(Tables(), provider, pcid.value, d);
          c := Some(d);
        }
      }
    }

    method Bridge(c: nat, wall: Time) returns (final: CallState)
      requires Valid() && c in calls
      modifies this
      ensures Valid() && (Tables(), final) == TryBridge(old(Tables()), c, wall)
    {
      var agent := calls[c].agent;
      var bridged := agents[agent].call == Some(c) && agents[agent].state.Dialing?;
      var next := if bridged then CallState.Connected else CallState.Abandoned;
      var row := AdvanceCall(c, next, None, None, None, wall);
      final := if row.Some? then next else CallState.Answered;
    }

    method ApplySideEffects(c: nat, final: CallState, now: Time, wrapup: Time, wall: Time)
      requires Valid() && c in calls
      modifies this
      ensures Valid() && Tables() == SideEffects(old(Tables()), c, final, now, wrapup, wall)
    {
      var k := calls[c];
      var s := AgentOnCallState(final);
      if s.Some? {
        ForceAgent(k.agent, s.value, if s.value.WrapUp? then Some(now + wrapup) else None, None);
      }
      if Terminal(final) {
        WriteBorrower(k.borrower, OnCallTerminal(borrowers[k.borrower], final, 60.0, wall));
      }
    }

    method ApplyOne(e: nat, now: Time, wrapup: Time, wall: Time)
      requires Valid() && e in events
      modifies this
      ensures Valid() && Tables() == TxApplyOne(old(Tables()), e, now, wrapup, wall)
    {
      var ev := events[e];
      var found := FindCall(ev.provider, ev.pcid);
      if found.None? {
        MarkEvent(e, false, Some(UnknownCall), None);
        return;
      }
      var c := found.value;
      var incoming := EventNames.Incoming(ev.etype);
      if incoming.None? {
        return;
      }
      var verdict := CanApply(calls[c].state, incoming.value);
      if verdict.Skip? {
        MarkEvent(e, true, Some(verdict.anomaly), Some(c));
        return;
      }
      var row := AdvanceCall(c, incoming.value, ev.pcid, None, None, wall);
      if row.None? {
        MarkEvent(e, true, Some(OutOfOrder), Some(c));
        return;
      }
      var final := incoming.value;
      if final.Answered? {
        final := Bridge(c, wall);
      }
      ApplySideEffects(c, final, now, wrapup, wall);
      MarkEvent(e, true, None, Some(c));
    }

    /** Apply the fetched events in order, then give up on the aged unknown ones. */
    method Drain(rows: seq<nat>, aged: set<nat>, now: Time, wrapup: Time, wall: Time)
      requires Valid() && forall e :: e in rows ==> e in events
      modifies this
      ensures Valid() && Tables() == TxDrain(old(Tables()), rows, aged, now, wrapup, wall)
    {
      for i := 0 to |rows|
        invariant Valid() && Tables() == ApplyEach(old(Tables()), rows[..i], now, wrapup, wall)
      {
        assert rows[..i + 1][..i] == rows[..i];
        ApplyOne(rows[i], now, wrapup, wall);
      }
      assert rows[..|rows|] == rows;
      events := GiveUpAged(Tables(), aged).events;
    }

    // ---- reaper.py

    /** FAIL_ORPHAN_CALLS: one bulk update; the ids it returns come in no particular order. */
    method FailOrphanCalls(t: Time, wall: Time) returns (orphans: seq<nat>)
      requires Valid()
      modifies this
      ensures Valid() && IsOrphanList(old(Tables()), orphans, t)
      ensures agents == old(agents) && borrowers == old(borrowers) && events == old(events)
      ensures calls.Keys == old(calls).Keys
      ensures forall c :: c in calls ==>
        calls[c] == if c in orphans then FailOrphan(old(calls)[c], wall) else old(calls)[c]
    {
      hide Exact, RefsUnique, ForeignKeys;
      orphans := [];
      var todo := calls.Keys;
      while todo != {}
        invariant Valid() && todo <= calls.Keys == old(calls).Keys
        invariant agents == old(agents) && borrowers == old(borrowers) && events == old(events)
        invariant Distinct(orphans)
        invariant forall c :: c in orphans <==> c in old(calls) && c !in todo && IsOrphan(old(calls)[c], t)
        invariant forall c :: c in calls ==>
          calls[c] == if c in orphans then FailOrphan(old(calls)[c], wall) else old(calls)[c]
        decreases todo
      {
        var c :| c in todo;
        todo := todo - {c};
        if IsOrphan(calls[c], t) {
          OneRowKeepsRefs(calls, c, FailOrphan(calls[c], wall));
          CallRefersToRows(Tables(), c);
          WriteCall(c, FailOrphan(calls[c], wall));
          orphans := orphans + [c];
        }
      }
    }

    /** A bulk UPDATE of agents, row by row as the triggers see it. */
    method UpdateAgents(f: Agent -> Agent)
      requires Valid() && forall row :: f(row).campaign == row.campaign
      modifies this
      ensures Valid() && Tables() == old(Tables()).(agents := map a | a in old(agents) :: f(old(agents)[a]))
    {
      hide Exact, RefsUnique, ForeignKeys;
      var todo := agents.Keys;
      while todo != {}
        invariant Valid() && todo <= agents.Keys == old(agents).Keys
        invariant calls == old(calls) && borrowers == old(borrowers) && events == old(events)
        invariant forall a :: a in agents ==> agents[a] == if a in todo then old(agents)[a] else f(old(agents)[a])
        decreases todo
      {
        var a :| a in todo;
        todo := todo - {a};
        WriteAgent(a, f(agents[a]));
      }
      assert agents == map a | a in old(agents) :: f(old(agents)[a]);
    }

    method FreeOrphan(c: nat, wall: Time)
      requires Valid() && c in calls
      modifies this
      ensures Valid()
      ensures var k := old(calls)[c];
        && k.agent in old(agents) && k.borrower in old(borrowers)
        && Tables() == old(Tables()).(
             agents := old(agents)[k.agent := Release(old(agents)[k.agent])],
             borrowers := old(borrowers)[k.borrower := Reschedule(old(borrowers)[k.borrower], 120.0, wall)])
    {
      hide Exact, RefsUnique;
      ReleaseAgent(calls[c].agent);
      WriteBorrower(calls[c].borrower, Reschedule(borrowers[calls[c].borrower], 120.0, wall));
    }

    /** The loop over the failed calls, started after the bulk update has already failed them all. */
    method FreeOrphans(orphans: seq<nat>, wall: Time, ghost db: Db)
      requires Valid() && ForeignKeys(db) && Distinct(orphans)
      requires calls.Keys == db.calls.Keys && forall c :: c in orphans ==> c in db.calls
      requires agents == db.agents && borrowers == db.borrowers && events == db.events
      requires forall c :: c in calls ==>
        calls[c] == if c in orphans then FailOrphan(db.calls[c], wall) else db.calls[c]
      modifies this
      ensures Valid() && Tables() == FailAll(db, orphans, wall)
    {
      hide Exact, RefsUnique, FailAll;
      StartFailAll(db, orphans, wall);
      for i := 0 to |orphans|
        invariant Valid() && events == db.events && calls == old(calls)
        invariant agents == FailAll(db, orphans[..i], wall).agents
        invariant borrowers == FailAll(db, orphans[..i], wall).borrowers
      {
        StepFailAll(db, orphans, i, wall);
        FreeOrphan(orphans[i], wall);
      }
      FinishFailAll(db, orphans, wall, calls);
    }

    /** RECLAIM_AGENTS, RELEASE_WRAPUP and RECLAIM_EXPIRED_LOCKS. */
    method SweepLeases(t: Time, wall: Time)
      requires Valid()
      modifies this
      ensures Valid()
      ensures Tables() == ReclaimLocks(ReleaseWrapUps(ReclaimAgents(old(Tables()), t), t), wall)
    {
      hide Exact, RefsUnique, ReclaimAgent, ReleaseWrapUp, ReclaimLock;
      CampaignsStay(t);
      UpdateAgents((row: Agent) => ReclaimAgent(row, t));
      assert Tables() == ReclaimAgents(old(Tables()), t);
      label reclaimed:
      UpdateAgents((row: Agent) => ReleaseWrapUp(row, t));
      assert Tables() == ReleaseWrapUps(old@reclaimed(Tables()), t);
      borrowers := map b | b in borrowers :: ReclaimLock(borrowers[b], wall);
    }

    /** One pass of the reaper: fail the orphans and free what they held, then the three lease sweeps. */
    method Reap(t: Time, wall: Time) returns (orphans: seq<nat>)
      requires Valid()
      modifies this
      ensures Valid() && ForeignKeys(old(Tables())) && IsOrphanList(old(Tables()), orphans, t)
      ensures Tables() == TxReap(old(Tables()), orphans, t, wall)
    {
      ghost var db := Tables();
      orphans := FailOrphanCalls(t, wall);
      hide Exact, RefsUnique, IsOrphan, FailAll, ReclaimAgents, ReleaseWrapUps, ReclaimLocks;
      FreeOrphans(orphans, wall, db);
      SweepLeases(t, wall);
    }

    // ---- allocator.py, the pullback sweep

    /** What other transactions committed in the meantime, their triggers included. */
    method Absorb(db: Db)
      requires ForeignKeys(db) && RefsUnique(db.calls)
      modifies this
      ensures Valid() && Tables() == db
    {
      agents, borrowers, calls, events := db.agents, db.borrowers, db.calls, db.events;
      counters := Recount(agents, calls);
      RecountIsExact(agents, calls);
    }

    /** A gap between two transactions, filled with what `env` commits. */
    method Interrupt(env: (nat, Db) -> Db, gap: nat)
      requires Valid() && Tolerable(Tables(), env(gap, Tables()))
      modifies this
      ensures Valid() && Tables() == env(gap, old(Tables()))
      ensures forall c :: Pullback.NoRing(old(calls), calls, c)
    {
      Absorb(env(gap, Tables()));
    }

    method Oldest(s: set<nat>) returns (c: nat)
      requires s != {} && s <= calls.Keys
      ensures c in s && forall d :: d in s ==> Older(calls[c], calls[d])
    {
      c :| c in s;
      var todo := s - {c};
      while todo != {}
        invariant todo <= s && c in s
        invariant forall d :: d in s && d !in todo ==> Older(calls[c], calls[d])
        decreases todo
      {
        var d :| d in todo;
        todo := todo - {d};
        if !Older(calls[c], calls[d]) {
          c := d;
        }
      }
    }

    /** The first `limit` INITIATED or RINGING calls of the campaign by initiated_at. */
    method ListRingingOldest(campaign: nat, limit: nat) returns (rows: seq<nat>)
      ensures Distinct(rows) && forall r :: r in rows ==> r in CallsRinging(calls, campaign)
      ensures |rows| == if |CallsRinging(calls, campaign)| <= limit then |CallsRinging(calls, campaign)| else limit
      ensures forall r :: r in rows ==> r in calls
      ensures forall i, j :: 0 <= i < j < |rows| ==> OlderId(calls, rows[i], rows[j])
      ensures OldestFirst(calls, rows, campaign)
    {
      rows := [];
      var rest := CallsRinging(calls, campaign);
      while |rows| < limit && rest != {}
        invariant Distinct(rows) && |rows| <= limit
        invariant rest <= CallsRinging(calls, campaign)
        invariant forall c :: c in CallsRinging(calls, campaign) <==> c in rows || c in rest
        invariant forall r :: r in rows ==> r !in rest
        invariant |rows| + |rest| == |CallsRinging(calls, campaign)|
        invariant forall i, j :: 0 <= i < j < |rows| ==> OlderId(calls, rows[i], rows[j])
        invariant forall r, c :: r in rows && c in rest ==> OlderId(calls, r, c)
        decreases rest
      {
        var c := Oldest(rest);
        rows := rows + [c];
        rest := rest - {c};
      }
    }

    /** Select the excess, then cancel each candidate in a transaction of its own. `env` is whatever the
        rest of the system commits before the i-th of them: any change of any table that puts no further
        call into INITIATED or RINGING. The number returned is the number of attempts its transactions
        charged and, while agents and calls correspond, of agents they freed. */
    method CancelExcessRinging(campaign: nat, allowed: int, wall: Time, env: (nat, Db) -> Db)
        returns (cancelled: nat, ghost rows: seq<nat>)
      requires Valid() && forall i: nat, db: Db :: Tolerable(db, env(i, db))
      modifies this
      ensures Valid() && |CallsRinging(calls, campaign)| <= if allowed < 0 then 0 else allowed
      ensures Distinct(rows) && |rows| == Selected(|CallsRinging(old(calls), campaign)|, allowed)
      ensures OldestFirst(old(calls), rows, campaign)
      ensures forall r :: r in rows ==> r in CallsRinging(old(calls), campaign)
      ensures var (after, t) := Swept(old(Tables()), rows, |rows|, wall, env, campaign);
        && Tables() == after && cancelled == t.cancelled == t.charged <= |rows|
        && (Coherent(old(Tables())) && KeepsCoherent(env) ==> t.freed == cancelled && Coherent(after))
      ensures Undisturbed(env) ==> cancelled == |rows|
    {
      hide Exact, RefsUnique, ForeignKeys, TxCancel, CallsRinging, Distinct, OldestFirst, SweepAt, Swept;
      hide Coherent, KeepsCoherent;
      ghost var start := Tables();
      cancelled := 0;
      var picked := ListRingingOldest(campaign, Excess(|CallsRinging(calls, campaign)|, allowed));
      rows := picked;
      SweepStarts(start, rows, wall, env, campaign);
      for i := 0 to |picked|
        invariant Valid() && rows == picked && (forall r :: r in rows ==> r in calls)
        invariant SweepAt(start, rows, i, wall, env, campaign, Tables(), cancelled)
      {
        ghost var db := Tables();
        assert Tolerable(db, env(i, db));
        Absorb(env(i, Tables()));
        ghost var mid := Tables();
        var done := CancelUnanswered(picked[i], wall);
        SweepGoesOn(start, rows, i, wall, env, campaign, db, cancelled);
        SweepKeepsRows(mid, rows[i], wall);
        cancelled := if done then cancelled + 1 else cancelled;
      }
      SweepEnds(start, rows, wall, env, campaign, Tables(), cancelled);
    }
  }

  function Recount(agents: map<nat, Agent>, calls: map<nat, Call>): map<nat, Counts> {
    var campaigns := (set a | a in agents :: agents[a].campaign) + (set c | c in calls :: calls[c].campaign);
    map g | g in campaigns :: Naive(agents, calls, g)
  }

  lemma RecountIsExact(agents: map<nat, Agent>, calls: map<nat, Call>)
    ensures Exact(Recount(agents, calls), agents, calls)
  {
    var counters := Recount(agents, calls);
    forall g: nat ensures Fast(counters, g) == Naive(agents, calls, g) {
      if g !in counters {
        NobodyHere(agents, calls, g);
      }
    }
  }

  lemma NobodyHere(agents: map<nat, Agent>, calls: map<nat, Call>, g: nat)
    requires forall a :: a in agents ==> agents[a].campaign != g
    requires forall c :: c in calls ==> calls[c].campaign != g
    ensures Naive(agents, calls, g) == NONE
  {
    assert forall s: AgentState {:trigger AgentsAt(agents, g, s)} :: AgentsAt(agents, g, s) == {};
    assert CallsRinging(calls, g) == {} && CallsTalking(calls, g) == {};
  }

  lemma CampaignsStay(t: Time)
    ensures forall row: Agent {:trigger ReclaimAgent(row, t)} :: ReclaimAgent(row, t).campaign == row.campaign
    ensures forall row: Agent {:trigger ReleaseWrapUp(row, t)} :: ReleaseWrapUp(row, t).campaign == row.campaign
  {
  }

  lemma StartFailAll(db: Db, orphans: seq<nat>, wall: Time)
    requires ForeignKeys(db) && forall c :: c in orphans ==> c in db.calls
    ensures orphans[..0] == [] && FailAll(db, orphans[..0], wall) == db
  {
  }

  lemma StepFailAll(db: Db, orphans: seq<nat>, i: nat, wall: Time)
    requires ForeignKeys(db) && Distinct(orphans) && i < |orphans|
    requires forall c :: c in orphans ==> c in db.calls
    ensures orphans[i] in orphans
    ensures var (k, before) := (db.calls[orphans[i]], FailAll(db, orphans[..i], wall));
      var after := FailAll(db, orphans[..i + 1], wall);
      && k.agent in before.agents && k.borrower in before.borrowers
      && after.agents == before.agents[k.agent := Release(before.agents[k.agent])]
      && after.borrowers == before.borrowers[k.borrower := Reschedule(before.borrowers[k.borrower], 120.0, wall)]
  {
    assert orphans[..i + 1][..i] == orphans[..i] && orphans[i] !in orphans[..i];
    Recovery.FailAllCalls(db, orphans[..i], wall);
  }

  lemma FinishFailAll(db: Db, orphans: seq<nat>, wall: Time, calls: map<nat, Call>)
    requires ForeignKeys(db) && Distinct(orphans) && forall c :: c in orphans ==> c in db.calls
    requires calls.Keys == db.calls.Keys && forall c :: c in calls ==>
      calls[c] == if c in orphans then FailOrphan(db.calls[c], wall) else db.calls[c]
    ensures orphans[..|orphans|] == orphans
    ensures calls == FailAll(db, orphans, wall).calls && FailAll(db, orphans, wall).events == db.events
  {
    Recovery.FailAllCalls(db, orphans, wall);
    Recovery.FailAllKeepsEvents(db, orphans, wall);
  }

  lemma CallRefersToRows(db: Db, c: nat)
    requires ForeignKeys(db) && c in db.calls
    ensures db.calls[c].agent in db.agents && db.calls[c].borrower in db.borrowers
  {
  }

  lemma NewReferenceIsUnique(calls: map<nat, Call>, c: nat, call: Call)
    requires RefsUnique(calls) && c !in calls && call.pcid.None?
    ensures RefsUnique(calls[c := call])
  {
  }

  lemma AdvanceKeepsRefs(db: Db, c: nat, row: Call)
    requires RefsUnique(db.calls) && c in db.calls && row.provider == db.calls[c].provider
    requires row.pcid == db.calls[c].pcid || (row.pcid.Some? && !RefTaken(db, c, row.provider, row.pcid.value))
    ensures RefsUnique(db.calls[c := row])
  {
    forall d | d in db.calls && d != c ensures !SameRef(db.calls[d], row) && !SameRef(row, db.calls[d]) {
      assert !SameRef(db.calls[c], db.calls[d]);
    }
  }
}
