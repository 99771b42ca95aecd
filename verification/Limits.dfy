/** Where the protocol depends on its environment, and exactly on what. Two paths of the allocator and
    the presence calls write an agent unconditionally; each is safe if and only if a test that the
    caller could have made beforehand succeeds. */
module Limits {
  import opened Domain
  import opened Rows
  import opened Transactions
  import opened World
  import opened Protocol
  import Preservation
  import Recovery
  import opened Runs
  import Laws

  /** Transaction 3 of a worker whose call was meanwhile failed by the reaper leaves an agent DIALING
      for a finished call: the tables stay in correspondence if and only if ADVANCE's guard still held. */
  lemma InitiateIsSafeIffCallStillReserved(w: World, c: nat, pcid: string, dialLease: Time, wall: Time)
    requires Inv(w) && Addressable(w, c)
    ensures Laws.Corresponds(TxInitiate(w.db, c, w.inflight[c].agent, pcid, dialLease, wall))
            <==> w.db.calls[c].rank < Rank(CallState.Initiated)
  {
    hide Inv, Laws.Corresponds;
    Preservation.OnlyReservedIsInflight(w, c);
    Preservation.CallIsCommitted(w, c);
    if RefTaken(w.db, c, w.db.calls[c].provider, pcid) && w.db.calls[c].state.Reserved? {
      Recovery.CallIsRowOk(w, c);
      Laws.Correspondence(w);
    } else if w.db.calls[c].state.Reserved? {
      Preservation.InitiateKeepsInv(w, c, pcid, dialLease, wall);
      Laws.Correspondence(AfterInitiate(w, c, pcid, dialLease, wall));
    } else {
      LateInitiateBreaks(w.db, c, w.inflight[c].agent, pcid, dialLease, wall);
    }
  }

  lemma LateInitiateBreaks(db: Db, c: nat, a: nat, pcid: string, dialLease: Time, wall: Time)
    requires c in db.calls && a in db.agents && Terminal(db.calls[c].state)
    requires db.calls[c].rank == 6
    ensures !Laws.Corresponds(TxInitiate(db, c, a, pcid, dialLease, wall))
  {
    var after := TxInitiate(db, c, a, pcid, dialLease, wall);
    assert after.calls == db.calls && after.agents[a].state.Dialing? && after.agents[a].call == Some(c);
    forall d | d in after.calls && Live(after.calls[d]) && after.calls[d].agent == a
      ensures !Linked(d, after.calls[d], after.agents[a])
    {
    }
  }

  /** The rejection path releases the agent and charges the attempt unconditionally: if and only if the
      call is not yet finished do agents still correspond and attempts still count. */
  lemma RejectIsSafeIffCallStillReserved(w: World, c: nat, wall: Time)
    requires Inv(w) && Addressable(w, c)
    ensures var after := TxReject(w.db, c, w.inflight[c].agent, w.inflight[c].borrower, wall);
      (Laws.Corresponds(after) && forall b :: b in after.borrowers ==> Laws.AttemptsCounted(after, b))
      <==> w.db.calls[c].rank < Rank(CallState.Failed)
  {
    hide Inv, Laws.Corresponds, Laws.AttemptsCounted;
    Preservation.OnlyReservedIsInflight(w, c);
    Preservation.CallIsCommitted(w, c);
    var k := w.inflight[c];
    var after := TxReject(w.db, c, k.agent, k.borrower, wall);
    if w.db.calls[c].state.Reserved? {
      Preservation.RejectKeepsInv(w, c, wall);
      Laws.Correspondence(AfterReject(w, c, wall));
      Laws.AllAttemptsCounted(AfterReject(w, c, wall));
    } else {
      Laws.AllAttemptsCounted(w);
      LateRejectMiscounts(w.db, c, k.agent, k.borrower, wall);
    }
  }

  lemma LateRejectMiscounts(db: Db, c: nat, a: nat, b: nat, wall: Time)
    requires c in db.calls && a in db.agents && b in db.borrowers && db.calls[c].rank == 6
    requires Laws.AttemptsCounted(db, b)
    ensures b in TxReject(db, c, a, b, wall).borrowers && !Laws.AttemptsCounted(TxReject(db, c, a, b, wall), b)
  {
    var after := TxReject(db, c, a, b, wall);
    assert Laws.CallsOf(after, b, false) == Laws.CallsOf(db, b, false);
  }

  /** A worker acting within its reserve lease always finds its call RESERVED. */
  lemma TimelyWorkersAreSafe(w: World, c: nat)
    requires Inv(w) && Timely(w, c)
    ensures c in w.db.calls && w.db.calls[c].rank < Rank(CallState.Initiated)
  {
    hide Inv;
    Preservation.OnlyReservedIsInflight(w, c);
    Preservation.CallIsCommitted(w, c);
  }

  /** Login, logout and pause are unconditional as well: safe exactly for agents not on a call. */
  lemma PresenceIsSafeIffIdle(w: World, a: nat, presence: AgentState)
    requires Inv(w) && a in w.db.agents
    requires presence.Available? || presence.Offline? || presence.Paused?
    ensures Laws.Corresponds(w.db.(agents := w.db.agents[a := ForceState(w.db.agents[a], presence, None, None)]))
            <==> !Busy(w.db.agents[a])
  {
    hide Inv, Laws.Corresponds;
    var row := ForceState(w.db.agents[a], presence, None, None);
    if Busy(w.db.agents[a]) {
      Recovery.BusyAgentServes(w, a);
      DroppedAgentBreaks(w.db, w.serving[a], a, row);
    } else {
      Preservation.SetAgentKeepsInv(w, a, row);
      Laws.Correspondence(w.(db := w.db.(agents := w.db.agents[a := row])));
    }
  }

  lemma DroppedAgentBreaks(db: Db, c: nat, a: nat, row: Agent)
    requires c in db.calls && Live(db.calls[c]) && db.calls[c].agent == a && !Busy(row)
    ensures !Laws.Corresponds(db.(agents := db.agents[a := row]))
  {
    var after := db.(agents := db.agents[a := row]);
    assert !Linked(c, after.calls[c], after.agents[a]);
  }

  // ---- a run in which the worker is late

  const PLACED_CALL: Call := NewCall(1, 1, 1, "mock_a", 1, 30.0)

  /** One agent and one borrower, idle. */
  const READY: World := World(
    0.0,
    Db(map[1 := Agent(1, AgentState.Available, 1, None, None)],
       map[1 := Borrower(1, BorrowerState.Pending, 0, 3, 0.0, None)], map[], map[]),
    map[], map[], map[], map[1 := []])

  /** A worker has placed their call under a lease that ends at 30. */
  const PLACED: World := World(
    0.0,
    Db(map[1 := Agent(1, AgentState.Reserved, 2, Some(30.0), None)],
       map[1 := Borrower(1, BorrowerState.Locked, 0, 3, 0.0, Some(30.0))],
       map[1 := PLACED_CALL], map[]),
    map[1 := Allocation(1, 1, 30.0)], map[1 := [Entry(CallState.Reserved, ByWorker)]], map[1 := 1], map[1 := [1]])

  lemma ReadyIsReachable()
    ensures Reachable(READY)
  {
    hide Reachable;
    EmptyIsReachable();
    StepIsReachable(EMPTY, AddAgent(1, 1));
    var joined := Do(EMPTY, AddAgent(1, 1));
    StepIsReachable(joined, SetPresence(1, AgentState.Available));
    var loggedIn := Do(joined, SetPresence(1, AgentState.Available));
    StepIsReachable(loggedIn, AddBorrower(1, 1, 3, 0.0));
    assert Do(loggedIn, AddBorrower(1, 1, 3, 0.0)) == READY;
  }

  lemma EmptyIsReachable()
    ensures Reachable(EMPTY)
  {
    assert CanRun(EMPTY, []) && After(EMPTY, []) == EMPTY;
  }

  lemma PlacedIsReachable()
    ensures Reachable(PLACED)
  {
    hide Reachable;
    ReadyIsReachable();
    var pick := Pick(Some(1), 1, Some(1), Some("mock_a"), 1);
    StepIsReachable(READY, Place(1, pick, 30.0, 0.0));
    assert !KeyTaken(READY.db, PLACED_CALL.key);
    assert READY.dialled[1] + [1] == [1];
    var (db, created) := TxReserve(READY.db, 1, pick, 30.0, 0.0);
    assert created == Some(1) && db == PLACED.db;
    assert Placed(READY, db, 1, 30.0) == PLACED;
  }

  /** The same, one second after the lease. */
  const STALLED: World := PLACED.(now := 31.0)

  lemma StalledCanBeReaped()
    ensures Shaped(STALLED) && Enabled(STALLED, Reap(31.0, [1], 31.0))
  {
    hide Shaped;
    StalledIsShaped();
    assert IsOrphan(PLACED_CALL, 31.0);
  }

  lemma StalledIsShaped()
    ensures Shaped(STALLED)
  {
    assert Addressable(STALLED, 1);
  }

  /** The sweep of a single call. */
  lemma FailingOne(w: World, c: nat, wall: Time)
    requires Shaped(w) && c in w.db.calls
    ensures FailAll(w.db, [c], wall) == FailOne(w.db, c, wall)
    ensures FailEach(w, [c], wall) == AfterFail(w, c, wall)
  {
    hide FailOne, AfterFail, Shaped;
    assert [c][..0] == [];
    ShapedRows(w);
    assert FailAll(w.db, [], wall) == w.db;
    assert FailEach(w, [], wall) == w;
  }

  lemma ShapedRows(w: World)
    requires Shaped(w)
    ensures ForeignKeys(w.db) && w.history.Keys == w.db.calls.Keys
  {
  }

  /** What the reap of a single orphan leaves. */
  lemma ReapOfOne(w: World, c: nat, t: Time)
    requires Shaped(w) && Enabled(w, Reap(t, [c], t)) && c in w.db.calls
    ensures var v := Do(w, Reap(t, [c], t));
      && v.db.calls == w.db.calls[c := FailOrphan(w.db.calls[c], t)]
      && v.inflight == w.inflight && v.history.Keys == w.history.Keys
      && v.db.agents.Keys == w.db.agents.Keys && v.db.borrowers.Keys == w.db.borrowers.Keys
  {
    hide FailAll, FailEach, Shaped, IsOrphanList, ReclaimAgent, ReleaseWrapUp, ReclaimLock;
    FailingOne(w, c, t);
    ShapedRows(w);
    Recovery.ReapRows(w.db, [c], t, t);
    hide TxReap;
  }

  lemma ReapedStalledCall()
    requires Shaped(STALLED) && Enabled(STALLED, Reap(31.0, [1], 31.0))
    ensures var w := Do(STALLED, Reap(31.0, [1], 31.0));
      && Addressable(w, 1) && w.inflight[1] == STALLED.inflight[1]
      && w.db.calls == map[1 := FailOrphan(PLACED_CALL, 31.0)]
  {
    hide Shaped, Enabled, Do;
    ReapOfOne(STALLED, 1, 31.0);
  }

  lemma StalledIsReachable()
    ensures Reachable(STALLED)
  {
    hide Reachable, Shaped;
    PlacedIsReachable();
    StepIsReachable(PLACED, Elapse(31.0));
  }

  /** The worker stalls past its lease, the reaper fails the call, and then the worker's transaction 3
      arrives: agent 1 is DIALING for a call that is over. */
  lemma LateWorkerStrandsAgent()
    ensures exists w: World ::
      Reachable(w) && Addressable(w, 1)
      && !Laws.Corresponds(TxInitiate(w.db, 1, w.inflight[1].agent, "pcid", 76.0, 31.0))
  {
    hide Reachable, Laws.Corresponds, TxInitiate, Shaped, Enabled, Do;
    StalledIsReachable();
    StalledCanBeReaped();
    ReapedStalledCall();
    var s := Reap(31.0, [1], 31.0);
    StepIsReachable(STALLED, s);
    var w := Do(STALLED, s);
    LateInitiateBreaks(w.db, 1, 1, "pcid", 76.0, 31.0);
  }

  /** The same run, but the provider turns the late worker down: its rejection charges the attempt that
      the reaper has charged already. */
  lemma LateRejectionMiscounts()
    ensures exists w: World ::
      Reachable(w) && Addressable(w, 1) && w.inflight[1].borrower == 1
      && 1 in TxReject(w.db, 1, w.inflight[1].agent, 1, 31.0).borrowers
      && !Laws.AttemptsCounted(TxReject(w.db, 1, w.inflight[1].agent, 1, 31.0), 1)
  {
    hide Reachable, Inv, Laws.AttemptsCounted, TxReject, Shaped, Enabled, Do;
    StalledIsReachable();
    StalledCanBeReaped();
    ReapedStalledCall();
    var s := Reap(31.0, [1], 31.0);
    StepIsReachable(STALLED, s);
    var w := Do(STALLED, s);
    ReachableHasInv(w);
    Laws.AllAttemptsCounted(w);
    LateRejectMiscounts(w.db, 1, w.inflight[1].agent, 1, 31.0);
  }

  /** Logging out an agent whose call has been placed leaves the call without an agent. */
  lemma LogoutOfBusyAgentBreaks()
    ensures Reachable(PLACED) && Busy(PLACED.db.agents[1])
    ensures var row := ForceState(PLACED.db.agents[1], AgentState.Offline, None, None);
      !Laws.Corresponds(PLACED.db.(agents := PLACED.db.agents[1 := row]))
  {
    hide Reachable, Laws.Corresponds;
    PlacedIsReachable();
    ReachableHasInv(PLACED);
    hide Inv;
    PresenceIsSafeIffIdle(PLACED, 1, AgentState.Offline);
  }

  // ---- a run in which a ringing call outlives its agent's lease

  const DIALLED_CALL: Call :=
    PLACED_CALL.(state := CallState.Initiated, rank := 2, pcid := Some("pcid"), initiatedAt := Some(0.0),
                 lease := Some(45.0))

  /** The worker was in time: its call is INITIATED, and its agent DIALING, under a lease that ends at 45. */
  const DIALLED: World := World(
    0.0,
    Db(map[1 := Agent(1, AgentState.Dialing, 3, Some(45.0), Some(1))], PLACED.db.borrowers,
       map[1 := DIALLED_CALL], map[]),
    map[], map[1 := [Entry(CallState.Reserved, ByWorker), Entry(CallState.Initiated, ByWorker)]],
    map[1 := 1], map[1 := [1]])

  const RINGING_EVENT: Event := Event("mock_a", "e1", Some("pcid"), "RINGING", false, None, None)

  /** The provider reports it ringing. */
  const HEARD: World := DIALLED.(db := DIALLED.db.(events := map[1 := RINGING_EVENT]))

  const RUNG_CALL: Call := DIALLED_CALL.(state := CallState.Ringing, rank := 3, ringingAt := Some(0.0), lease := None)

  lemma DialledIsReachable()
    ensures Reachable(DIALLED)
  {
    hide Reachable, Shaped;
    PlacedIsReachable();
    var s := Initiate(1, "pcid", 45.0, 0.0);
    StepIsReachable(PLACED, s);
    assert !RefTaken(PLACED.db, 1, "mock_a", "pcid");
    assert TxInitiate(PLACED.db, 1, 1, "pcid", 45.0, 0.0) == DIALLED.db;
    assert PLACED.history[1] + Entries([CallState.Initiated], ByWorker) == DIALLED.history[1];
    assert Do(PLACED, s) == DIALLED;
  }

  lemma HeardIsReachable()
    ensures Reachable(HEARD)
  {
    hide Reachable, Shaped;
    DialledIsReachable();
    StepIsReachable(DIALLED, Ingest(1, "mock_a", "e1", Some("pcid"), "RINGING"));
    assert !EventTaken(DIALLED.db, "mock_a", "e1");
  }

  lemma RingingIsApplied()
    ensures ForeignKeys(HEARD.db)
    ensures var after := TxApply(HEARD.db, 1, 1, CallState.Initiated, CallState.Ringing, 0.0, 8.0, 0.0);
      after.calls == map[1 := RUNG_CALL] && after.agents == DIALLED.db.agents
  {
    assert CanApply(CallState.Initiated, CallState.Ringing).Apply?;
    hide CanApply;
  }

  lemma RungIsReachable() returns (w: World)
    ensures Reachable(w) && w.now == 100.0 && w.db.calls == map[1 := RUNG_CALL] && w.db.agents == DIALLED.db.agents
  {
    hide Reachable, Shaped, TxApply, Writes;
    HeardIsReachable();
    RingingIsApplied();
    assert HEARD.history[1][1].state == CallState.Initiated;
    var s := Deliver(1, 1, CallState.Initiated, CallState.Ringing, 8.0, 0.0);
    StepIsReachable(HEARD, s);
    var rung := Do(HEARD, s);
    StepIsReachable(rung, Elapse(100.0));
    w := Do(rung, Elapse(100.0));
  }

  /** Agent a's lease has passed, there is no orphan, and a reap now leaves the agent DIALING. */
  ghost predicate LeaseOutlived(w: World, a: nat) {
    && ForeignKeys(w.db) && IsOrphanList(w.db, [], w.now)
    && a in w.db.agents && w.db.agents[a].state.Dialing? && Before(w.db.agents[a].lease, w.now)
    && var after := TxReap(w.db, [], w.now, w.now).agents; a in after && after[a].state.Dialing?
  }

  /** "No agent stays in RESERVED/DIALING longer than its lease" fails for the agent of a ringing call:
      its lease ended at 45, the reaper runs at 100, and it is DIALING still. */
  lemma RingingAgentOutlivesItsLease()
    ensures exists w: World :: Reachable(w) && LeaseOutlived(w, 1)
  {
    hide Reachable, Inv, Shaped, TxReap;
    var w := RungIsReachable();
    ReachableHasInv(w);
    InvIsShaped(w);
    ShapedRows(w);
    Recovery.ExpiredAgentIsFreedIffNotRinging(w, w.now, [], w.now, 1);
    assert LeaseOutlived(w, 1);
  }
}
