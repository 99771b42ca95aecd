/** Each database transaction of the protocol as a function on the committed tables. Picks that SQL
    leaves open (which unlocked row, which fresh id) are arguments. */
module Transactions {
  import opened Domain
  import opened Rows

  datatype Db = Db(
    agents: map<nat, Agent>, borrowers: map<nat, Borrower>, calls: map<nat, Call>, events: map<nat, Event>)

  /** The REFERENCES constraints of migrations/001_init.sql; no statement deletes a row. */
  predicate ForeignKeys(db: Db) {
    forall c :: c in db.calls ==> db.calls[c].agent in db.agents && db.calls[c].borrower in db.borrowers
  }

  // ---- the UNIQUE constraints of migrations/001_init.sql

  predicate KeyTaken(db: Db, key: string) {
    exists c :: c in db.calls && db.calls[c].key == key
  }

  predicate RefTaken(db: Db, self: nat, provider: string, pcid: string) {
    exists c :: c in db.calls && c != self && db.calls[c].provider == provider && db.calls[c].pcid == Some(pcid)
  }

  predicate EventTaken(db: Db, provider: string, eventId: string) {
    exists e :: e in db.events && db.events[e].provider == provider && db.events[e].eventId == eventId
  }

  // ---- allocator.py, transaction 1: reserve an agent, claim a borrower, create the call

  datatype Pick = Pick(
    agent: Option<nat>, version: nat, borrower: Option<nat>, provider: Option<string>, call: nat)

  predicate PickOk(db: Db, campaign: nat, pick: Pick, wall: Time) {
    && (pick.agent.Some? ==>
      var a := pick.agent.value;
      a in db.agents && db.agents[a].campaign == campaign && db.agents[a].state.Available?)
    && (pick.borrower.Some? ==>
      var b := pick.borrower.value;
      b in db.borrowers && db.borrowers[b].campaign == campaign && Claimable(db.borrowers[b], wall))
    && pick.call !in db.calls
  }

  /** The new tables and the id of the call created, if one was. A UNIQUE violation rolls everything back. */
  function TxReserve(db: Db, campaign: nat, pick: Pick, lease: Time, wall: Time): (Db, Option<nat>)
    requires PickOk(db, campaign, pick, wall)
  {
    if pick.agent.None? then (db, None) else
    var a := pick.agent.value;
    var won := ReserveCas(db.agents[a], pick.version, lease);
    if won.None? then (db, None) else
    var freed := db.(agents := db.agents[a := Release(won.value)]);
    if pick.borrower.None? then (freed, None) else
    var b := pick.borrower.value;
    var claimed := Claim(db.borrowers[b], lease);
    if pick.provider.None? then (freed.(borrowers := db.borrowers[b := Unclaim(claimed)]), None) else
    var call := NewCall(campaign, a, b, pick.provider.value, claimed.attempts + 1, lease);
    if KeyTaken(db, call.key) then (db, None) else
    (db.(agents := db.agents[a := won.value], borrowers := db.borrowers[b := claimed],
         calls := db.calls[pick.call := call]),
     Some(pick.call))
  }

  // ---- allocator.py, the rejection path and transaction 3

  function TxReject(db: Db, c: nat, a: nat, b: nat, wall: Time): Db
    requires c in db.calls && a in db.agents && b in db.borrowers
  {
    var row := Advance(db.calls[c], CallState.Failed, None, None, Some("PROVIDER_REJECTED"), wall);
    db.(calls := if row.Some? then db.calls[c := row.value] else db.calls,
        agents := db.agents[a := Release(db.agents[a])],
        borrowers := db.borrowers[b := Reschedule(db.borrowers[b], 60.0, wall)])
  }

  /** The result of `advance` is ignored: the agent is forced even when the call row did not move. */
  function TxInitiate(db: Db, c: nat, a: nat, pcid: string, dialLease: Time, wall: Time): Db
    requires c in db.calls && a in db.agents
  {
    var row := Advance(db.calls[c], CallState.Initiated, Some(pcid), Some(dialLease), None, wall);
    if row.Some? && row.value.pcid == Some(pcid) && RefTaken(db, c, row.value.provider, pcid) then db
    else db.(calls := if row.Some? then db.calls[c := row.value] else db.calls,
             agents := db.agents[a := ForceState(db.agents[a], AgentState.Dialing, Some(dialLease), Some(c))])
  }

  // ---- allocator.py, one transaction of the pullback loop

  function TxCancel(db: Db, c: nat, wall: Time): Db
    requires c in db.calls && ForeignKeys(db)
  {
    var row := CancelIfNotAnswered(db.calls[c], "SAFETY_PULLBACK", wall);
    if row.None? then db
    else var k := row.value;
      db.(calls := db.calls[c := k],
          agents := db.agents[k.agent := Release(db.agents[k.agent])],
          borrowers := db.borrowers[k.borrower :=
            OnCallTerminal(db.borrowers[k.borrower], CallState.Cancelled, 30.0, wall)])
  }

  // ---- repo/events.py and worker/event_applier.py

  function TxIngest(db: Db, e: nat, provider: string, eventId: string, pcid: Option<string>, etype: string): Db
    requires e !in db.events
  {
    if EventTaken(db, provider, eventId) then db
    else db.(events := db.events[e := Event(provider, eventId, pcid, etype, false, None, None)])
  }

  function Mark(db: Db, e: nat, applied: bool, anomaly: Option<Anomaly>, call: Option<nat>): Db
    requires e in db.events
  {
    db.(events := db.events[e := db.events[e].(applied := applied, anomaly := anomaly,
                                               call := Coalesce(db.events[e].call, call))])
  }

  /** The agent still holds this call, so a human can be put on the line. */
  predicate Bridgeable(db: Db, c: nat)
    requires c in db.calls
  {
    var a := db.calls[c].agent;
    a in db.agents && db.agents[a].call == Some(c) && db.agents[a].state.Dialing?
  }

  function SideEffects(db: Db, c: nat, final: CallState, now: Time, wrapup: Time, wall: Time): Db
    requires c in db.calls && ForeignKeys(db)
  {
    var k := db.calls[c];
    var s := AgentOnCallState(final);
    var lease := if s == Some(AgentState.WrapUp) then Some(now + wrapup) else None;
    db.(agents := if s.Some? then db.agents[k.agent := ForceState(db.agents[k.agent], s.value, lease, None)]
                  else db.agents,
        borrowers := if Terminal(final)
                     then db.borrowers[k.borrower := OnCallTerminal(db.borrowers[k.borrower], final, 60.0, wall)]
                     else db.borrowers)
  }

  /** ANSWERED becomes CONNECTED if the agent can be bridged and ABANDONED otherwise, inside the
      same transaction. Returns the tables and the state the side effects are keyed to. */
  function TryBridge(db: Db, c: nat, wall: Time): (r: (Db, CallState))
    requires c in db.calls && ForeignKeys(db)
    ensures c in r.0.calls && ForeignKeys(r.0)
    ensures r.0 == db.(calls := r.0.calls) && r.0.calls.Keys == db.calls.Keys
  {
    var next := if Bridgeable(db, c) then CallState.Connected else CallState.Abandoned;
    var row := Advance(db.calls[c], next, None, None, None, wall);
    if row.None? then (db, CallState.Answered) else (db.(calls := db.calls[c := row.value]), next)
  }

  /** The transition and its side effects, once the guarded update has returned `row`. */
  function Transition(db: Db, c: nat, row: Call, incoming: CallState, now: Time, wrapup: Time, wall: Time): Db
    requires c in db.calls && ForeignKeys(db) && row.agent in db.agents && row.borrower in db.borrowers
  {
    var moved := db.(calls := db.calls[c := row]);
    var (bridged, final) := if incoming.Answered? then TryBridge(moved, c, wall) else (moved, incoming);
    SideEffects(bridged, c, final, now, wrapup, wall)
  }

  /** `apply_one` for an event whose call was found. `seen` is the state read without a lock before
      the guarded update; the row itself may have moved since. */
  function TxApply(db: Db, e: nat, c: nat, seen: CallState, incoming: CallState,
                   now: Time, wrapup: Time, wall: Time): Db
    requires e in db.events && c in db.calls && ForeignKeys(db)
  {
    var verdict := CanApply(seen, incoming);
    if verdict.Skip? then Mark(db, e, true, Some(verdict.anomaly), Some(c)) else
    var row := Advance(db.calls[c], incoming, db.events[e].pcid, None, None, wall);
    if row.None? then Mark(db, e, true, Some(OutOfOrder), Some(c)) else
    Mark(Transition(db, c, row.value, incoming, now, wrapup, wall), e, true, None, Some(c))
  }

  function TxUnknown(db: Db, e: nat): Db
    requires e in db.events
  {
    Mark(db, e, false, Some(UnknownCall), None)
  }

  function TxGiveUp(db: Db, e: nat): Db
    requires e in db.events
  {
    db.(events := db.events[e := db.events[e].(applied := true)])
  }

  // ---- worker/reaper.py

  /** One orphan, whole: the call fails, its agent is freed, its borrower is rescheduled. */
  function FailOne(db: Db, c: nat, wall: Time): (r: Db)
    requires c in db.calls && ForeignKeys(db)
    ensures ForeignKeys(r) && r.calls.Keys == db.calls.Keys
  {
    var k := db.calls[c];
    db.(calls := db.calls[c := FailOrphan(k, wall)],
        agents := db.agents[k.agent := Release(db.agents[k.agent])],
        borrowers := db.borrowers[k.borrower := Reschedule(db.borrowers[k.borrower], 120.0, wall)])
  }

  function FailAll(db: Db, orphans: seq<nat>, wall: Time): (r: Db)
    requires ForeignKeys(db) && forall c :: c in orphans ==> c in db.calls
    ensures ForeignKeys(r) && r.calls.Keys == db.calls.Keys
  {
    if orphans == [] then db
    else FailOne(FailAll(db, orphans[..|orphans| - 1], wall), orphans[|orphans| - 1], wall)
  }

  function Reclaimed(agents: map<nat, Agent>, t: Time): map<nat, Agent> {
    map a | a in agents :: ReclaimAgent(agents[a], t)
  }

  function WrapUpsReleased(agents: map<nat, Agent>, t: Time): map<nat, Agent> {
    map a | a in agents :: ReleaseWrapUp(agents[a], t)
  }

  function ReclaimAgents(db: Db, t: Time): Db { db.(agents := Reclaimed(db.agents, t)) }

  function ReleaseWrapUps(db: Db, t: Time): Db { db.(agents := WrapUpsReleased(db.agents, t)) }

  function ReclaimLocks(db: Db, wall: Time): Db {
    db.(borrowers := map b | b in db.borrowers :: ReclaimLock(db.borrowers[b], wall))
  }

  predicate Distinct(s: seq<nat>) { forall i, j :: 0 <= i < j < |s| ==> s[i] != s[j] }

  /** The rows FAIL_ORPHAN_CALLS returns at time t, each once, in some order. */
  ghost predicate IsOrphanList(db: Db, orphans: seq<nat>, t: Time) {
    && Distinct(orphans)
    && (forall c :: c in orphans <==> c in db.calls && IsOrphan(db.calls[c], t))
  }

  function TxReap(db: Db, orphans: seq<nat>, t: Time, wall: Time): Db
    requires ForeignKeys(db) && IsOrphanList(db, orphans, t)
  {
    ReclaimLocks(ReleaseWrapUps(ReclaimAgents(FailAll(db, orphans, wall), t), t), wall)
  }
}
