/** Crash recovery: `reap` keeps the invariant and leaves no expired lease behind. */
module Recovery {
  import opened Domain
  import opened Rows
  import opened Transactions
  import opened World
  import opened Protocol
  import Preservation

  // ---- the orphan sweep

  lemma FailOneKeepsInv(w: World, c: nat, t: Time, wall: Time)
    requires Inv(w) && c in w.db.calls && c in w.history && ForeignKeys(w.db)
    requires IsOrphan(w.db.calls[c], t) && t <= w.now
    ensures Inv(AfterFail(w, c, wall))
  {
    hide Inv;
    var k := w.db.calls[c];
    CallIsRowOk(w, c);
    Preservation.LiveCallIsAnchored(w, c);
    if c in w.inflight {
      Preservation.OnlyReservedIsInflight(w, c);
    }
    var db := FailOne(w.db, c, wall);
    assert db.borrowers[k.borrower] == Reschedule(w.db.borrowers[k.borrower], 120.0, wall);
    Preservation.TerminalRowsFollow(c, k, w.db.agents[k.agent], w.db.borrowers[k.borrower],
                       db.calls[c], db.agents[k.agent], db.borrowers[k.borrower]);
    hide RowsFollow;
    Preservation.TrackIsMove(w, db, c, [CallState.Failed], ByReaper);
  }

  lemma CallIsRowOk(w: World, c: nat)
    requires Inv(w) && c in w.db.calls
    ensures CallRowOk(w.db.calls[c])
  {
  }

  /** The sweep's loop, taken whole: exactly the listed calls fail. */
  lemma {:induction false} FailAllCalls(db: Db, orphans: seq<nat>, wall: Time)
    requires ForeignKeys(db) && Distinct(orphans) && forall c :: c in orphans ==> c in db.calls
    ensures forall c :: c in db.calls ==>
      FailAll(db, orphans, wall).calls[c] == if c in orphans then FailOrphan(db.calls[c], wall) else db.calls[c]
  {
    if orphans != [] {
      var n := |orphans| - 1;
      FailAllCalls(db, orphans[..n], wall);
      assert orphans == orphans[..n] + [orphans[n]];
      assert orphans[n] !in orphans[..n];
    }
  }

  lemma {:induction false} FailAllKeepsEvents(db: Db, orphans: seq<nat>, wall: Time)
    requires ForeignKeys(db) && forall c :: c in orphans ==> c in db.calls
    ensures FailAll(db, orphans, wall).events == db.events
  {
    if orphans != [] {
      FailAllKeepsEvents(db, orphans[..|orphans| - 1], wall);
    }
  }

  lemma {:induction false} FailEachKeepsInv(w: World, orphans: seq<nat>, t: Time, wall: Time)
    requires Inv(w) && t <= w.now && Distinct(orphans)
    requires ForeignKeys(w.db) && w.history.Keys == w.db.calls.Keys
    requires forall c :: c in orphans ==> c in w.db.calls && IsOrphan(w.db.calls[c], t)
    ensures Inv(FailEach(w, orphans, wall))
  {
    hide Inv;
    if orphans != [] {
      var n := |orphans| - 1;
      var c, front := orphans[n], orphans[..n];
      FailEachKeepsInv(w, front, t, wall);
      FailAllCalls(w.db, front, wall);
      FailOneKeepsInv(FailEach(w, front, wall), c, t, wall);
    }
  }

  ghost predicate NoOrphans(calls: map<nat, Call>, t: Time) {
    forall c :: c in calls ==> !IsOrphan(calls[c], t)
  }

  lemma FailAllLeavesNoOrphans(db: Db, orphans: seq<nat>, t: Time, wall: Time)
    requires ForeignKeys(db) && IsOrphanList(db, orphans, t)
    ensures NoOrphans(FailAll(db, orphans, wall).calls, t)
  {
    FailAllCalls(db, orphans, wall);
  }

  // ---- the agent sweeps

  /** With the orphans gone, the agent sweep frees nobody: an expired reservation had an expired call,
      and an expired dial lease belongs to a call that is ringing. */
  lemma ReclaimKeepsBound(calls: map<nat, Call>, agents: map<nat, Agent>, borrowers: map<nat, Borrower>,
                          serving: map<nat, nat>, t: Time)
    requires Bound(calls, agents, serving) && CallsOk(calls, agents, borrowers) && NoOrphans(calls, t)
    ensures Bound(calls, Reclaimed(agents, t), serving)
    ensures forall a :: a in agents ==> Reclaimed(agents, t)[a].state == agents[a].state
    ensures forall a :: a in agents && Reclaimed(agents, t)[a] != agents[a] ==>
      agents[a].state.Dialing? && calls[serving[a]].state.Ringing?
  {
    forall a | a in agents && (agents[a].state.Reserved? || agents[a].state.Dialing?) && Before(agents[a].lease, t)
      ensures a in serving && calls[serving[a]].state.Ringing? && agents[a].state.Dialing?
    {
      var c := serving[a];
      assert CallRowOk(calls[c]) && !IsOrphan(calls[c], t);
    }
  }

  lemma WrapUpsKeepBound(calls: map<nat, Call>, agents: map<nat, Agent>, serving: map<nat, nat>, t: Time)
    requires Bound(calls, agents, serving)
    ensures Bound(calls, WrapUpsReleased(agents, t), serving)
  {
  }

  lemma AgentSweepKeepsCalls(calls: map<nat, Call>, agents: map<nat, Agent>, agents': map<nat, Agent>,
                             borrowers: map<nat, Borrower>)
    requires CallsOk(calls, agents, borrowers)
    requires forall a :: a in agents ==> a in agents' && agents'[a].campaign == agents[a].campaign
    ensures CallsOk(calls, agents', borrowers)
  {
    forall c | c in calls ensures CallRowOk(calls[c]) && Placeable(calls[c], agents', borrowers) {
      assert Placeable(calls[c], agents, borrowers);
    }
  }

  lemma AgentSweepsKeepInv(w: World, t: Time)
    requires Inv(w) && NoOrphans(w.db.calls, t)
    ensures Inv(w.(db := ReleaseWrapUps(ReclaimAgents(w.db, t), t)))
  {
    hide CallsOk, Bound, Numbered, Inflight, Recorded, Accounted, KeysOk, RefsUnique, NoOrphans;
    var agents := Reclaimed(w.db.agents, t);
    ReclaimKeepsBound(w.db.calls, w.db.agents, w.db.borrowers, w.serving, t);
    AgentSweepKeepsCalls(w.db.calls, w.db.agents, agents, w.db.borrowers);
    WrapUpsKeepBound(w.db.calls, agents, w.serving, t);
    AgentSweepKeepsCalls(w.db.calls, agents, WrapUpsReleased(agents, t), w.db.borrowers);
  }

  lemma ReapKeepsInv(w: World, t: Time, orphans: seq<nat>, wall: Time)
    requires Inv(w) && ForeignKeys(w.db) && w.history.Keys == w.db.calls.Keys
    requires t <= w.now && IsOrphanList(w.db, orphans, t)
    ensures Inv(AfterReap(w, t, orphans, wall))
  {
    hide Inv, NoOrphans;
    var v := FailEach(w, orphans, wall);
    FailEachKeepsInv(w, orphans, t, wall);
    FailAllLeavesNoOrphans(w.db, orphans, t, wall);
    AgentSweepsKeepInv(v, t);
    var u := v.(db := ReleaseWrapUps(ReclaimAgents(v.db, t), t));
    Preservation.BorrowerSweepKeepsInv(u, ReclaimLocks(u.db, wall).borrowers);
  }

  // ---- what a reap leaves behind

  predicate Owns(calls: map<nat, Call>, orphans: seq<nat>, a: nat)
    requires forall c :: c in orphans ==> c in calls
  {
    exists i :: 0 <= i < |orphans| && calls[orphans[i]].agent == a
  }

  lemma FailOneAgents(db: Db, c: nat, wall: Time, a: nat)
    requires ForeignKeys(db) && c in db.calls && a in db.agents
    ensures a in FailOne(db, c, wall).agents
    ensures FailOne(db, c, wall).agents[a] == if db.calls[c].agent == a then Release(db.agents[a]) else db.agents[a]
  {
  }

  /** The loop frees exactly the agents of the listed calls. */
  lemma {:induction false} FailAllAgents(db: Db, orphans: seq<nat>, wall: Time, a: nat)
    requires ForeignKeys(db) && Distinct(orphans) && a in db.agents
    requires forall c :: c in orphans ==> c in db.calls
    ensures var after := FailAll(db, orphans, wall).agents;
      && a in after
      && if Owns(db.calls, orphans, a)
         then after[a].state.Available? && after[a].lease.None? && after[a].call.None?
         else after[a] == db.agents[a]
  {
    if orphans != [] {
      var n := |orphans| - 1;
      var front := orphans[..n];
      FailAllAgents(db, front, wall, a);
      FailAllCalls(db, front, wall);
      FailOneAgents(FailAll(db, front, wall), orphans[n], wall, a);
      OwnsLast(db.calls, orphans, a);
      hide FailOne, ForeignKeys, Distinct, Owns;
    }
  }

  lemma OwnsLast(calls: map<nat, Call>, orphans: seq<nat>, a: nat)
    requires orphans != [] && forall c :: c in orphans ==> c in calls
    ensures var n := |orphans| - 1;
      Owns(calls, orphans, a) <==> Owns(calls, orphans[..n], a) || calls[orphans[n]].agent == a
  {
    var n := |orphans| - 1;
    assert orphans == orphans[..n] + [orphans[n]];
  }

  /** An agent row after both sweeps holds no lease before t. */
  lemma SweptRowHasNoOldLease(a: Agent, t: Time)
    requires AgentRowOk(a)
    ensures !Before(ReleaseWrapUp(ReclaimAgent(a, t), t).lease, t)
    ensures var row := ReleaseWrapUp(ReclaimAgent(a, t), t);
      ReclaimAgent(row, t) == row && ReleaseWrapUp(row, t) == row
  {
  }

  lemma ReapRows(db: Db, orphans: seq<nat>, t: Time, wall: Time)
    requires ForeignKeys(db) && IsOrphanList(db, orphans, t)
    ensures var mid := FailAll(db, orphans, wall); var after := TxReap(db, orphans, t, wall);
      && after.calls == mid.calls && after.events == mid.events
      && after.agents.Keys == mid.agents.Keys && after.borrowers.Keys == mid.borrowers.Keys
      && (forall a :: a in mid.agents ==> after.agents[a] == ReleaseWrapUp(ReclaimAgent(mid.agents[a], t), t))
      && (forall b :: b in mid.borrowers ==> after.borrowers[b] == ReclaimLock(mid.borrowers[b], wall))
  {
  }

  ghost predicate NoExpiredLease(db: Db, t: Time) {
    && (forall a :: a in db.agents ==> !Before(db.agents[a].lease, t))
    && (forall c :: c in db.calls && (db.calls[c].state.Reserved? || db.calls[c].state.Initiated?) ==>
      !Before(db.calls[c].lease, t))
  }

  lemma AgentRowsOk(w: World)
    requires Inv(w)
    ensures forall a :: a in w.db.agents ==> AgentRowOk(w.db.agents[a])
  {
  }

  lemma CallRowsOk(w: World)
    requires Inv(w)
    ensures forall c :: c in w.db.calls ==> CallRowOk(w.db.calls[c])
  {
  }

  /** After a reap at t, no agent and no undialled or unrung call holds a lease before t. */
  lemma ReapLeavesNoExpiredLease(w: World, t: Time, orphans: seq<nat>, wall: Time)
    requires Inv(w) && Shaped(w) && t <= w.now && IsOrphanList(w.db, orphans, t)
    ensures NoExpiredLease(TxReap(w.db, orphans, t, wall), t)
  {
    hide Inv, NoOrphans, FailAll, TxReap;
    var v := FailEach(w, orphans, wall);
    FailEachKeepsInv(w, orphans, t, wall);
    FailAllLeavesNoOrphans(w.db, orphans, t, wall);
    ReapRows(w.db, orphans, t, wall);
    AgentRowsOk(v);
    CallRowsOk(v);
    forall a | a in v.db.agents ensures !Before(TxReap(w.db, orphans, t, wall).agents[a].lease, t) {
      SweptRowHasNoOldLease(v.db.agents[a], t);
    }
    OnlyOrphansExpire(v.db.calls, t);
  }

  lemma OnlyOrphansExpire(calls: map<nat, Call>, t: Time)
    requires NoOrphans(calls, t) && forall c :: c in calls ==> CallRowOk(calls[c])
    ensures forall c :: c in calls && (calls[c].state.Reserved? || calls[c].state.Initiated?) ==>
      !Before(calls[c].lease, t)
  {
    forall c | c in calls && (calls[c].state.Reserved? || calls[c].state.Initiated?)
      ensures !Before(calls[c].lease, t)
    {
      assert CallRowOk(calls[c]) && !IsOrphan(calls[c], t);
    }
  }

  /** Rows the sweeps have nothing left to do to. */
  ghost predicate Settled(db: Db, t: Time, wall: Time) {
    && NoOrphans(db.calls, t)
    && (forall a :: a in db.agents ==>
      ReclaimAgent(db.agents[a], t) == db.agents[a] && ReleaseWrapUp(db.agents[a], t) == db.agents[a])
    && (forall b :: b in db.borrowers ==> ReclaimLock(db.borrowers[b], wall) == db.borrowers[b])
  }

  lemma LockSweepIsIdempotent(b: Borrower, wall: Time)
    ensures ReclaimLock(ReclaimLock(b, wall), wall) == ReclaimLock(b, wall)
  {
  }

  lemma ReapKeepsReferences(db: Db, orphans: seq<nat>, t: Time, wall: Time)
    requires ForeignKeys(db) && IsOrphanList(db, orphans, t)
    ensures ForeignKeys(TxReap(db, orphans, t, wall))
  {
  }

  lemma ReapSettles(w: World, t: Time, orphans: seq<nat>, wall: Time)
    requires Inv(w) && Shaped(w) && t <= w.now && IsOrphanList(w.db, orphans, t)
    ensures Settled(TxReap(w.db, orphans, t, wall), t, wall) && ForeignKeys(TxReap(w.db, orphans, t, wall))
  {
    hide Inv, FailAll, TxReap, NoOrphans, ReclaimAgent, ReleaseWrapUp, ReclaimLock;
    var v := FailEach(w, orphans, wall);
    FailEachKeepsInvListed(w, orphans, t, wall);
    FailAllLeavesNoOrphans(w.db, orphans, t, wall);
    AgentRowsOk(v);
    ReapRows(w.db, orphans, t, wall);
    ReapKeepsReferences(w.db, orphans, t, wall);
    hide Shaped, IsOrphanList, ForeignKeys, FailEach;
    forall a | a in v.db.agents
      ensures var row := ReleaseWrapUp(ReclaimAgent(v.db.agents[a], t), t);
        ReclaimAgent(row, t) == row && ReleaseWrapUp(row, t) == row
    {
      SweptRowHasNoOldLease(v.db.agents[a], t);
    }
    forall b | b in v.db.borrowers
      ensures ReclaimLock(ReclaimLock(v.db.borrowers[b], wall), wall) == ReclaimLock(v.db.borrowers[b], wall)
    {
      LockSweepIsIdempotent(v.db.borrowers[b], wall);
    }
  }

  lemma FailEachKeepsInvListed(w: World, orphans: seq<nat>, t: Time, wall: Time)
    requires Inv(w) && Shaped(w) && t <= w.now && IsOrphanList(w.db, orphans, t)
    ensures Inv(FailEach(w, orphans, wall))
  {
    hide Inv;
    FailEachKeepsInv(w, orphans, t, wall);
  }

  lemma SettledReapIsIdle(db: Db, t: Time, wall: Time)
    requires Settled(db, t, wall) && ForeignKeys(db)
    ensures IsOrphanList(db, [], t) && TxReap(db, [], t, wall) == db
  {
    assert ReclaimAgents(db, t).agents == db.agents;
    assert ReleaseWrapUps(db, t).agents == db.agents;
    assert ReclaimLocks(db, wall).borrowers == db.borrowers;
  }

  /** A second reap at the same instant finds nothing to fail and changes no row. */
  lemma ReapTwiceIsReapOnce(w: World, t: Time, orphans: seq<nat>, wall: Time)
    requires Inv(w) && Shaped(w) && t <= w.now && IsOrphanList(w.db, orphans, t)
    ensures var once := TxReap(w.db, orphans, t, wall);
      && ForeignKeys(once) && IsOrphanList(once, [], t) && TxReap(once, [], t, wall) == once
  {
    hide Inv, TxReap, Settled, IsOrphanList;
    ReapSettles(w, t, orphans, wall);
    SettledReapIsIdle(TxReap(w.db, orphans, t, wall), t, wall);
  }

  /** The exact form of "no agent stays RESERVED or DIALING past its lease": an agent whose lease has
      expired is freed by the reap if and only if its call has not rung; a ringing call keeps its agent
      DIALING, with the lease cleared. */
  lemma ExpiredAgentIsFreedIffNotRinging(w: World, t: Time, orphans: seq<nat>, wall: Time, c: nat)
    requires Inv(w) && Shaped(w) && t <= w.now && IsOrphanList(w.db, orphans, t)
    requires c in w.db.calls && Live(w.db.calls[c])
    requires w.db.calls[c].agent in w.db.agents && Before(w.db.agents[w.db.calls[c].agent].lease, t)
    ensures var a := w.db.calls[c].agent;
      var after := TxReap(w.db, orphans, t, wall).agents;
      && a in after
      && (after[a].state.Available? <==> !w.db.calls[c].state.Ringing?)
      && (w.db.calls[c].state.Ringing? ==> after[a].state.Dialing? && after[a].lease.None? && after[a].call == Some(c))
  {
    hide Inv, FailAll, TxReap;
    var k := w.db.calls[c];
    Preservation.LiveCallIsAnchored(w, c);
    ReapRows(w.db, orphans, t, wall);
    FailAllAgents(w.db, orphans, wall, k.agent);
    if k.state.Ringing? {
      forall i | 0 <= i < |orphans| ensures w.db.calls[orphans[i]].agent != k.agent {
        assert orphans[i] in orphans;
        OrphanIsNot(w, orphans[i], c, t);
      }
    } else {
      assert IsOrphan(k, t);
      var i :| 0 <= i < |orphans| && orphans[i] == c;
      assert Owns(w.db.calls, orphans, k.agent);
    }
  }

  lemma OrphanIsNot(w: World, d: nat, c: nat, t: Time)
    requires Inv(w) && d in w.db.calls && c in w.db.calls && IsOrphan(w.db.calls[d], t)
    requires Live(w.db.calls[c]) && w.db.calls[c].state.Ringing?
    ensures w.db.calls[d].agent != w.db.calls[c].agent
  {
    hide Inv;
    Preservation.LiveCallIsAnchored(w, c);
    CallIsRowOk(w, d);
    Preservation.LiveCallIsAnchored(w, d);
  }

  ghost predicate HeldByRungCall(db: Db, a: nat) {
    exists c :: c in db.calls && db.calls[c].agent == a && (db.calls[c].state.Ringing? || db.calls[c].state.Connected?)
  }

  predicate LeasesBefore(calls: map<nat, Call>, t: Time) {
    forall c :: c in calls && calls[c].lease.Some? ==> calls[c].lease.value < t
  }

  lemma BusyWithoutLeaseIsRung(w: World, t: Time, a: nat)
    requires Inv(w) && NoExpiredLease(w.db, t) && LeasesBefore(w.db.calls, t)
    requires a in w.db.agents && Busy(w.db.agents[a])
    ensures HeldByRungCall(w.db, a)
  {
    BusyAgentServes(w, a);
    var c := w.serving[a];
    CallIsRowOk(w, c);
    hide Inv;
  }

  lemma ReapKeepsLeasesBefore(db: Db, t: Time, orphans: seq<nat>, wall: Time)
    requires ForeignKeys(db) && IsOrphanList(db, orphans, t) && LeasesBefore(db.calls, t)
    ensures LeasesBefore(TxReap(db, orphans, t, wall).calls, t)
  {
    FailAllCalls(db, orphans, wall);
    ReapRows(db, orphans, t, wall);
    hide TxReap, FailAll;
  }

  /** Reaped later than every lease, only agents of ringing or connected calls are still busy. */
  lemma AfterEveryLeaseOnlyRungCallsHoldAgents(w: World, t: Time, orphans: seq<nat>, wall: Time)
    requires Inv(w) && Shaped(w) && t <= w.now && IsOrphanList(w.db, orphans, t)
    requires LeasesBefore(w.db.calls, t)
    ensures var after := TxReap(w.db, orphans, t, wall);
      forall a :: a in after.agents && Busy(after.agents[a]) ==> HeldByRungCall(after, a)
  {
    hide Inv, TxReap, HeldByRungCall, LeasesBefore, NoExpiredLease;
    var u := AfterReap(w, t, orphans, wall);
    ReapKeepsInv(w, t, orphans, wall);
    ReapLeavesNoExpiredLease(w, t, orphans, wall);
    ReapKeepsLeasesBefore(w.db, t, orphans, wall);
    hide Shaped, IsOrphanList, ForeignKeys;
    forall a | a in u.db.agents && Busy(u.db.agents[a]) ensures HeldByRungCall(u.db, a) {
      BusyWithoutLeaseIsRung(u, t, a);
    }
  }

  lemma BusyAgentServes(w: World, a: nat)
    requires Inv(w) && a in w.db.agents && Busy(w.db.agents[a])
    ensures a in w.serving && w.serving[a] in w.db.calls && w.db.calls[w.serving[a]].agent == a
    ensures Live(w.db.calls[w.serving[a]])
  {
  }
}
