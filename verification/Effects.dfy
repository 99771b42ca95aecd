/** What each transaction leaves in the rows, column by column. In a coherent world the CASE and COALESCE
    of the statements, their guards and the unlocked reads come down to these few outcomes. */
module Effects {
  import opened Domain
  import opened Rows
  import opened Transactions
  import opened World
  import opened Protocol
  import opened Preservation
  import Keys
  import Drains
  import EventNames
  import Laws
  import Ledger
  import Lifecycle
  import Recovery

  // ---- how a call ends

  /** The agent of an ended call: in wrap-up until then if it was completed, free otherwise. */
  predicate LetGo(before: Agent, after: Agent, completed: bool, wrapUntil: Time) {
    && after.campaign == before.campaign && after.version == before.version + 1 && after.call.None?
    && if completed then after.state.WrapUp? && after.lease == Some(wrapUntil)
       else after.state.Available? && after.lease.None?
  }

  /** Its borrower: charged an attempt, unlocked, and finished, out of attempts or due again. */
  predicate Charged(before: Borrower, after: Borrower, completed: bool, dueAt: Time) {
    && after.campaign == before.campaign && after.maxAttempts == before.maxAttempts
    && after.attempts == before.attempts + 1 && after.lockedUntil.None?
    && if completed then after.state.Done? && after.eligibleAt == before.eligibleAt
       else
         && after.eligibleAt == dueAt
         && if before.attempts + 1 >= before.maxAttempts then after.state.Exhausted? else after.state.Pending?
  }

  /** Call c, its agent and its borrower are written; the call becomes `row`. */
  predicate EndsAs(db: Db, after: Db, c: nat, row: Call, wrapUntil: Time, dueAt: Time) {
    && c in db.calls && after.calls == db.calls[c := row]
    && var (a, b) := (db.calls[c].agent, db.calls[c].borrower);
    && a in db.agents && a in after.agents && after.agents == db.agents[a := after.agents[a]]
    && b in db.borrowers && b in after.borrowers && after.borrowers == db.borrowers[b := after.borrowers[b]]
    && LetGo(db.agents[a], after.agents[a], row.state.Completed?, wrapUntil)
    && Charged(db.borrowers[b], after.borrowers[b], row.state.Completed?, dueAt)
  }

  lemma ReservedFails(db: Db, c: nat, wall: Time)
    requires ForeignKeys(db) && c in db.calls && CallRowOk(db.calls[c]) && db.calls[c].state.Reserved?
    ensures var k := db.calls[c]; var after := TxReject(db, c, k.agent, k.borrower, wall);
      && after.events == db.events
      && EndsAs(db, after, c, k.(state := CallState.Failed, rank := 6, terminalAt := Some(wall), lease := None,
                                 failure := Some("PROVIDER_REJECTED")), 0.0, wall + 60.0)
  {
  }

  lemma TimelyIsReserved(w: World, c: nat)
    requires Inv(w) && Shaped(w) && Timely(w, c)
    ensures Addressable(w, c) && ForeignKeys(w.db) && CallRowOk(w.db.calls[c]) && w.db.calls[c].state.Reserved?
    ensures w.inflight[c].agent == w.db.calls[c].agent && w.inflight[c].borrower == w.db.calls[c].borrower
  {
    hide Inv, CallRowOk;
    OnlyReservedIsInflight(w, c);
    Recovery.CallIsRowOk(w, c);
  }

  /** The provider refused: the call fails, and its borrower is due again in a minute. */
  lemma RejectionEnds(w: World, c: nat, wall: Time)
    requires Inv(w) && Shaped(w) && Timely(w, c)
    ensures Addressable(w, c)
    ensures var k := w.db.calls[c]; var after := TxReject(w.db, c, w.inflight[c].agent, w.inflight[c].borrower, wall);
      && after.events == w.db.events
      && EndsAs(w.db, after, c, k.(state := CallState.Failed, rank := 6, terminalAt := Some(wall), lease := None,
                                   failure := Some("PROVIDER_REJECTED")), 0.0, wall + 60.0)
  {
    hide Inv, Shaped, Timely, CallRowOk, TxReject, ForeignKeys, EndsAs;
    TimelyIsReserved(w, c);
    ReservedFails(w.db, c, wall);
  }

  /** A pullback that finds the call unanswered cancels it, and its borrower is due again in 30 seconds. */
  lemma CancellationEnds(w: World, c: nat, wall: Time)
    requires Inv(w) && Shaped(w) && c in w.db.calls
    ensures var (k, after) := (w.db.calls[c], TxCancel(w.db, c, wall));
      if k.state.Initiated? || k.state.Ringing? then
        && after.events == w.db.events
        && EndsAs(w.db, after, c, k.(state := CallState.Cancelled, rank := 6, terminalAt := Some(wall), lease := None,
                                     failure := Some("SAFETY_PULLBACK")), 0.0, wall + 30.0)
      else after == w.db
  {
    hide Inv;
    if Unanswered(w.db.calls[c]) {
      LiveCallIsAnchored(w, c);
    }
  }

  // ---- what an event does

  /** The ledger row says which call it was applied to, and why if it had no effect. */
  predicate Settles(db: Db, after: Db, e: nat, c: nat, anomaly: Option<Anomaly>) {
    && e in db.events
    && after.events == db.events[e := db.events[e].(applied := true, anomaly := anomaly, call := Some(c))]
  }

  /** RINGING is recorded once; the agent and the borrower wait. */
  predicate Rings(db: Db, after: Db, c: nat, wall: Time) {
    && c in db.calls && db.calls[c].state.Initiated? && db.calls[c].ringingAt.None?
    && after.agents == db.agents && after.borrowers == db.borrowers
    && after.calls == db.calls[c := db.calls[c].(state := CallState.Ringing, rank := 3, ringingAt := Some(wall),
                                                 lease := None)]
  }

  /** ANSWERED puts the agent on the line at once, without a lease. */
  predicate Connects(db: Db, after: Db, c: nat, wall: Time) {
    && c in db.calls && db.calls[c].answeredAt.None? && db.calls[c].connectedAt.None?
    && (db.calls[c].state.Initiated? || db.calls[c].state.Ringing?)
    && after.calls == db.calls[c := db.calls[c].(state := CallState.Connected, rank := 5, answeredAt := Some(wall),
                                                 connectedAt := Some(wall), lease := None)]
    && var a := db.calls[c].agent;
    && a in db.agents && after.borrowers == db.borrowers
    && after.agents == db.agents[a := db.agents[a].(state := AgentState.Connected, lease := None, call := None,
                                                    version := db.agents[a].version + 1)]
  }

  /** An event that comes too late, or skips the answer. */
  predicate ComesTooLate(k: Call, incoming: CallState) {
    match k.state
    case Initiated => Rank(incoming) <= 2 || incoming.Connected?
    case Ringing => Rank(incoming) <= 3 || incoming.Connected?
    case Connected => Rank(incoming) <= 5
    case _ => true
  }

  lemma CommittedIsDialled(w: World, c: nat, seen: CallState)
    requires Inv(w) && c in w.db.calls && c in w.history && WasCommitted(w.history[c], seen)
    ensures var k := w.db.calls[c];
      SeenOf(k.state, seen) && CallRowOk(k) && k.rank >= 2 && k.rank == Rank(k.state)
  {
    hide LegalHistory, WasCommitted, SeenOf;
    CallHistory(w, c);
    CallIsCommitted(w, c);
    Recovery.CallIsRowOk(w, c);
    SeenIsDialled(w, c, seen);
    hide Inv;
    OldReadIsSeenOf(w.history[c], w.db.calls[c].state, seen);
  }

  /** What an event does to a call it moves. */
  predicate MovesAs(db: Db, after: Db, c: nat, incoming: CallState, wrapUntil: Time, wall: Time) {
    if incoming.Ringing? then Rings(db, after, c, wall)
    else if incoming.Answered? then Connects(db, after, c, wall)
    else
      && Terminal(incoming) && c in db.calls
      && EndsAs(db, after, c, db.calls[c].(state := incoming, rank := 6, terminalAt := Some(wall), lease := None),
                wrapUntil, wall + 60.0)
  }

  lemma TransitionMoves(w: World, c: nat, incoming: CallState, wrapup: Time, wall: Time)
    requires Anchored(w, c) && ForeignKeys(w.db) && w.db.calls[c].rank >= 2
    requires !ComesTooLate(w.db.calls[c], incoming)
    ensures var k := w.db.calls[c];
      && k.rank < Rank(incoming)
      && var row := Advance(k, incoming, k.pcid, None, None, wall).value;
      MovesAs(w.db, Transition(w.db, c, row, incoming, w.now, wrapup, wall), c, incoming, w.now + wrapup, wall)
  {
  }

  lemma GuardsStopLateEvents(k: Call, seen: CallState, incoming: CallState)
    requires SeenOf(k.state, seen) && k.rank == Rank(k.state) && !k.state.Queued? && !k.state.Reserved?
    ensures ComesTooLate(k, incoming) <==> !(CanApply(seen, incoming).Apply? && k.rank < Rank(incoming))
    ensures ComesTooLate(k, incoming) ==>
      (CanApply(seen, incoming) == Skip(IllegalTransition)
       <==> incoming.Connected? && (seen.Initiated? || seen.Ringing?))
  {
  }

  lemma StoppedIsMarked(db: Db, e: nat, c: nat, seen: CallState, incoming: CallState,
                        now: Time, wrapup: Time, wall: Time)
    requires e in db.events && db.events[e].call.None? && c in db.calls && ForeignKeys(db)
    requires !(CanApply(seen, incoming).Apply? && db.calls[c].rank < Rank(incoming))
    ensures var after := TxApply(db, e, c, seen, incoming, now, wrapup, wall);
      && after == db.(events := after.events)
      && Settles(db, after, e, c, if CanApply(seen, incoming) == Skip(IllegalTransition)
                                  then Some(IllegalTransition) else Some(OutOfOrder))
  {
    hide Transition, ForeignKeys;
  }

  lemma MovedAndMarked(db: Db, moved: Db, after: Db, e: nat, c: nat, incoming: CallState, wrapUntil: Time, wall: Time)
    requires e in moved.events && moved.events == db.events && db.events[e].call.None?
    requires after == Mark(moved, e, true, None, Some(c)) && MovesAs(db, moved, c, incoming, wrapUntil, wall)
    ensures Settles(db, after, e, c, None) && MovesAs(db, after, c, incoming, wrapUntil, wall)
  {
  }

  lemma TransitionKeepsLedger(db: Db, c: nat, row: Call, incoming: CallState, now: Time, wrapup: Time, wall: Time)
    requires c in db.calls && ForeignKeys(db) && row.agent in db.agents && row.borrower in db.borrowers
    ensures Transition(db, c, row, incoming, now, wrapup, wall).events == db.events
  {
  }

  /** One event, applied with a read however old: it rings, connects or ends its call, or changes nothing
      but its own row. It is reported illegal only if it claims CONNECTED for a call read unanswered. */
  lemma DeliverySettles(w: World, e: nat, c: nat, seen: CallState, incoming: CallState, wrapup: Time, wall: Time)
    requires Inv(w) && Laws.Deliverable(w, e, c, seen)
    ensures var (k, after) := (w.db.calls[c], TxApply(w.db, e, c, seen, incoming, w.now, wrapup, wall));
      if ComesTooLate(k, incoming) then
        && after == w.db.(events := after.events)
        && Settles(w.db, after, e, c, if incoming.Connected? && (seen.Initiated? || seen.Ringing?)
                                      then Some(IllegalTransition) else Some(OutOfOrder))
      else Settles(w.db, after, e, c, None) && MovesAs(w.db, after, c, incoming, w.now + wrapup, wall)
  {
    hide Inv, WasCommitted, MovesAs, Settles, Transition, Mark, TxApply, CanApply, ComesTooLate, SeenOf, CallRowOk;
    var k := w.db.calls[c];
    CommittedIsDialled(w, c, seen);
    UnappliedHasNoCall(w, e);
    GuardsStopLateEvents(k, seen, incoming);
    if ComesTooLate(k, incoming) {
      StoppedIsMarked(w.db, e, c, seen, incoming, w.now, wrapup, wall);
    } else {
      LiveCallIsAnchoredIfMoved(w, c, incoming);
      hide Anchored;
      TransitionMoves(w, c, incoming, wrapup, wall);
      AppliedIsTransition(w.db, e, c, seen, incoming, w.now, wrapup, wall);
      var row := Advance(k, incoming, k.pcid, None, None, wall).value;
      TransitionKeepsLedger(w.db, c, row, incoming, w.now, wrapup, wall);
      MovedAndMarked(w.db, Transition(w.db, c, row, incoming, w.now, wrapup, wall),
                     TxApply(w.db, e, c, seen, incoming, w.now, wrapup, wall), e, c, incoming, w.now + wrapup, wall);
    }
  }

  lemma LiveCallIsAnchoredIfMoved(w: World, c: nat, incoming: CallState)
    requires Inv(w) && c in w.db.calls && !ComesTooLate(w.db.calls[c], incoming)
    ensures Anchored(w, c)
  {
    hide Inv;
    CallIsCommitted(w, c);
    LiveCallIsAnchored(w, c);
  }

  /** Somebody answers and the agent is not DIALING for this call, as no coherent world allows: the call is
      ABANDONED, not connected, and ends like any other. */
  lemma UnheldAnswerIsAbandoned(db: Db, e: nat, c: nat, seen: CallState, now: Time, wrapup: Time, wall: Time)
    requires ForeignKeys(db) && e in db.events && c in db.calls
    requires CanApply(seen, CallState.Answered).Apply? && db.calls[c].rank < 4 && db.calls[c].answeredAt.None?
    requires var a := db.agents[db.calls[c].agent]; a.call != Some(c) || !a.state.Dialing?
    ensures var (k, after) := (db.calls[c], TxApply(db, e, c, seen, CallState.Answered, now, wrapup, wall));
      && after.events == db.events[e := db.events[e].(applied := true, anomaly := None,
                                                     call := Coalesce(db.events[e].call, Some(c)))]
      && EndsAs(db, after, c, k.(state := CallState.Abandoned, rank := 6, answeredAt := Some(wall),
                                 terminalAt := Some(wall), lease := None, pcid := Coalesce(k.pcid, db.events[e].pcid)),
                0.0, wall + 60.0)
  {
    hide CanApply;
  }

  // ---- placing a call

  /** Call c is dialled under the provider's reference, on an agent now DIALING for it. */
  predicate Dials(db: Db, after: Db, c: nat, pcid: string, dialLease: Time, wall: Time) {
    && c in db.calls && after.events == db.events && after.borrowers == db.borrowers
    && after.calls == db.calls[c := db.calls[c].(state := CallState.Initiated, rank := 2, pcid := Some(pcid),
                                                 initiatedAt := Some(wall), lease := Some(dialLease))]
    && var a := db.calls[c].agent;
    && a in db.agents
    && after.agents == db.agents[a := db.agents[a].(state := AgentState.Dialing, version := db.agents[a].version + 1,
                                                    lease := Some(dialLease), call := Some(c))]
  }

  lemma ReservedIsDialled(db: Db, c: nat, pcid: string, dialLease: Time, wall: Time)
    requires ForeignKeys(db) && c in db.calls && CallRowOk(db.calls[c]) && db.calls[c].state.Reserved?
    ensures var after := TxInitiate(db, c, db.calls[c].agent, pcid, dialLease, wall);
      if RefTaken(db, c, db.calls[c].provider, pcid) then after == db else Dials(db, after, c, pcid, dialLease, wall)
  {
    hide RefTaken;
  }

  /** Transaction 3 dials the call, unless another call of the provider has the reference: then nothing
      is written. */
  lemma InitiationDials(w: World, c: nat, pcid: string, dialLease: Time, wall: Time)
    requires Inv(w) && Shaped(w) && Timely(w, c)
    ensures Addressable(w, c)
    ensures var after := TxInitiate(w.db, c, w.inflight[c].agent, pcid, dialLease, wall);
      if exists d :: d in w.db.calls && d != c && w.db.calls[d].provider == w.db.calls[c].provider
                     && w.db.calls[d].pcid == Some(pcid)
      then after == w.db else Dials(w.db, after, c, pcid, dialLease, wall)
  {
    hide Inv, Shaped, Timely, CallRowOk, TxInitiate, ForeignKeys, Dials;
    TimelyIsReserved(w, c);
    ReservedIsDialled(w.db, c, pcid, dialLease, wall);
  }

  /** A new call of a due borrower on an idle agent of the campaign, all three held for the lease. */
  predicate Reserves(db: Db, after: Db, campaign: nat, a: nat, b: nat, c: nat, provider: string, lease: Time,
                     wall: Time)
  {
    && a in db.agents && db.agents[a].state.Available? && db.agents[a].campaign == campaign
    && b in db.borrowers && db.borrowers[b].state.Pending? && db.borrowers[b].eligibleAt <= wall
    && db.borrowers[b].campaign == campaign && c !in db.calls && after.events == db.events
    && after.agents == db.agents[a := db.agents[a].(state := AgentState.Reserved, lease := Some(lease),
                                                    version := db.agents[a].version + 1)]
    && after.borrowers == db.borrowers[b := db.borrowers[b].(state := BorrowerState.Locked, lockedUntil := Some(lease))]
    && var n := db.borrowers[b].attempts + 1;
    && after.calls == db.calls[c := Call(campaign, a, b, provider, None, CallState.Reserved, 1, n,
                                         Keys.KeyOf(campaign, b, n), Some(lease), None, None, None, None, None, None)]
  }

  /** An agent was reserved and let go again: only its version tells, and any lock left on its borrower
      is gone. */
  predicate Returns(db: Db, after: Db, a: nat, borrower: Option<nat>) {
    && a in db.agents && after.calls == db.calls && after.events == db.events
    && after.agents == db.agents[a := db.agents[a].(version := db.agents[a].version + 2, lease := None, call := None)]
    && match borrower
       case None => after.borrowers == db.borrowers
       case Some(b) => b in db.borrowers && after.borrowers == db.borrowers[b := db.borrowers[b].(lockedUntil := None)]
  }

  lemma ReserveRows(db: Db, campaign: nat, pick: Pick, lease: Time, wall: Time)
    requires PickOk(db, campaign, pick, wall)
    ensures var (after, created) := TxReserve(db, campaign, pick, lease, wall);
      if pick.agent.None? || db.agents[pick.agent.value].version != pick.version
      then after == db && created.None?
      else if pick.borrower.None? || pick.provider.None?
      then created.None? && Returns(db, after, pick.agent.value, pick.borrower)
      else if KeyTaken(db, Keys.KeyOf(campaign, pick.borrower.value, db.borrowers[pick.borrower.value].attempts + 1))
      then after == db && created.None?
      else
        && created == Some(pick.call)
        && Reserves(db, after, campaign, pick.agent.value, pick.borrower.value, pick.call, pick.provider.value, lease,
                    wall)
  {
    hide KeyTaken, Keys.KeyOf;
  }

  /** Reserve-and-create makes a call exactly if it wins the agent, finds a borrower and a provider, and
      no call of the borrower is live. */
  lemma PlacementReserves(w: World, campaign: nat, pick: Pick, lease: Time, wall: Time)
    requires Inv(w) && PickOk(w.db, campaign, pick, wall)
    ensures var (after, created) := TxReserve(w.db, campaign, pick, lease, wall);
      if pick.agent.None? || w.db.agents[pick.agent.value].version != pick.version
      then after == w.db && created.None?
      else if pick.borrower.None? || pick.provider.None?
      then created.None? && Returns(w.db, after, pick.agent.value, pick.borrower)
      else if HasLiveCall(w.db, pick.borrower.value)
      then after == w.db && created.None?
      else
        && created == Some(pick.call)
        && Reserves(w.db, after, campaign, pick.agent.value, pick.borrower.value, pick.call, pick.provider.value,
                    lease, wall)
  {
    hide Inv, KeyTaken, HasLiveCall, Keys.KeyOf, TxReserve, Reserves, Returns;
    ReserveRows(w.db, campaign, pick, lease, wall);
    if pick.borrower.Some? {
      NextKeyTakenIffLive(w, pick.borrower.value);
    }
  }

  // ---- a reap

  /** The call was never heard of again. */
  predicate Expired(k: Call, t: Time) {
    (k.state.Reserved? || k.state.Initiated?) && k.lease.Some? && k.lease.value < t
  }

  predicate AgentExpires(calls: map<nat, Call>, a: nat, t: Time) {
    exists c :: c in calls && Expired(calls[c], t) && calls[c].agent == a
  }

  predicate BorrowerExpires(calls: map<nat, Call>, b: nat, t: Time) {
    exists c :: c in calls && Expired(calls[c], t) && calls[c].borrower == b
  }

  /** An agent is freed with its expired call or at the end of its wrap-up; one whose call rings only
      loses its lease. */
  predicate AgentReaped(before: Agent, after: Agent, expires: bool, t: Time) {
    if expires then LetGo(before, after, false, t)
    else if before.state.WrapUp? && before.lease.Some? && before.lease.value < t
    then after == before.(state := AgentState.Available, version := before.version + 1, lease := None, call := None)
    else if before.state.Dialing? && before.lease.Some? && before.lease.value < t
    then after == before.(version := before.version + 1, lease := None)
    else after == before
  }

  /** A borrower is charged for its expired call, due again in two minutes; a lock that ran out is lifted. */
  predicate BorrowerReaped(before: Borrower, after: Borrower, expires: bool, wall: Time) {
    if expires then Charged(before, after, false, wall + 120.0)
    else if before.state.Locked? && before.lockedUntil.Some? && before.lockedUntil.value < wall
    then after == before.(state := BorrowerState.Pending, lockedUntil := None)
    else after == before
  }

  ghost predicate Reaps(db: Db, after: Db, t: Time, wall: Time) {
    && after.events == db.events && after.calls.Keys == db.calls.Keys
    && after.agents.Keys == db.agents.Keys && after.borrowers.Keys == db.borrowers.Keys
    && (forall c :: c in db.calls ==>
      after.calls[c] == if !Expired(db.calls[c], t) then db.calls[c]
                        else db.calls[c].(state := CallState.Failed, rank := 6, terminalAt := Some(wall),
                                          failure := Some("LEASE_EXPIRED_NO_EVENTS")))
    && (forall a :: a in db.agents ==>
      AgentReaped(db.agents[a], after.agents[a], AgentExpires(db.calls, a, t), t))
    && (forall b :: b in db.borrowers ==>
      BorrowerReaped(db.borrowers[b], after.borrowers[b], BorrowerExpires(db.calls, b, t), wall))
  }

  /** No two of these calls share an agent or a borrower. */
  predicate Disjoint(calls: map<nat, Call>, orphans: seq<nat>)
    requires forall c :: c in orphans ==> c in calls
  {
    forall i, j :: 0 <= i < j < |orphans| ==>
      calls[orphans[i]].agent != calls[orphans[j]].agent && calls[orphans[i]].borrower != calls[orphans[j]].borrower
  }

  predicate Borrows(calls: map<nat, Call>, orphans: seq<nat>, b: nat)
    requires forall c :: c in orphans ==> c in calls
  {
    exists i :: 0 <= i < |orphans| && calls[orphans[i]].borrower == b
  }

  lemma BorrowsLast(calls: map<nat, Call>, orphans: seq<nat>)
    requires orphans != [] && forall c :: c in orphans ==> c in calls
    ensures var n := |orphans| - 1;
      forall b :: Borrows(calls, orphans, b) <==> Borrows(calls, orphans[..n], b) || calls[orphans[n]].borrower == b
  {
    var n := |orphans| - 1;
    assert orphans == orphans[..n] + [orphans[n]];
  }

  lemma NewOrphanIsDisjoint(calls: map<nat, Call>, orphans: seq<nat>)
    requires orphans != [] && (forall c :: c in orphans ==> c in calls) && Disjoint(calls, orphans)
    ensures var n := |orphans| - 1;
      && Disjoint(calls, orphans[..n]) && !Recovery.Owns(calls, orphans[..n], calls[orphans[n]].agent)
      && !Borrows(calls, orphans[..n], calls[orphans[n]].borrower)
  {
  }

  lemma {:induction false} FailAllAgentRow(db: Db, orphans: seq<nat>, wall: Time, a: nat)
    requires ForeignKeys(db) && Distinct(orphans) && (forall c :: c in orphans ==> c in db.calls)
    requires Disjoint(db.calls, orphans) && a in db.agents
    ensures var mid := FailAll(db, orphans, wall).agents;
      a in mid && mid[a] == if Recovery.Owns(db.calls, orphans, a) then Release(db.agents[a]) else db.agents[a]
  {
    if orphans != [] {
      var n := |orphans| - 1;
      FailAllAgentRow(db, orphans[..n], wall, a);
      Recovery.FailAllCalls(db, orphans[..n], wall);
      Recovery.FailOneAgents(FailAll(db, orphans[..n], wall), orphans[n], wall, a);
      Recovery.OwnsLast(db.calls, orphans, a);
      NewOrphanIsDisjoint(db.calls, orphans);
      hide FailOne, ForeignKeys, Distinct, Recovery.Owns, Borrows, Disjoint, Release;
    }
  }

  lemma FailOneBorrowers(db: Db, c: nat, wall: Time, b: nat)
    requires ForeignKeys(db) && c in db.calls && b in db.borrowers
    ensures b in FailOne(db, c, wall).borrowers
    ensures FailOne(db, c, wall).borrowers[b]
            == if db.calls[c].borrower == b then Reschedule(db.borrowers[b], 120.0, wall) else db.borrowers[b]
  {
  }

  lemma {:induction false} FailAllBorrowerRow(db: Db, orphans: seq<nat>, wall: Time, b: nat)
    requires ForeignKeys(db) && Distinct(orphans) && (forall c :: c in orphans ==> c in db.calls)
    requires Disjoint(db.calls, orphans) && b in db.borrowers
    ensures var mid := FailAll(db, orphans, wall).borrowers;
      b in mid && mid[b] == if Borrows(db.calls, orphans, b) then Reschedule(db.borrowers[b], 120.0, wall)
                            else db.borrowers[b]
  {
    if orphans != [] {
      var n := |orphans| - 1;
      FailAllBorrowerRow(db, orphans[..n], wall, b);
      Recovery.FailAllCalls(db, orphans[..n], wall);
      FailOneBorrowers(FailAll(db, orphans[..n], wall), orphans[n], wall, b);
      BorrowsLast(db.calls, orphans);
      NewOrphanIsDisjoint(db.calls, orphans);
      hide FailOne, ForeignKeys, Distinct, Recovery.Owns, Borrows, Disjoint, Reschedule;
    }
  }

  lemma {:induction false} FailAllAddsNoRows(db: Db, orphans: seq<nat>, wall: Time)
    requires ForeignKeys(db) && forall c :: c in orphans ==> c in db.calls
    ensures var mid := FailAll(db, orphans, wall);
      mid.agents.Keys == db.agents.Keys && mid.borrowers.Keys == db.borrowers.Keys
  {
    if orphans != [] {
      FailAllAddsNoRows(db, orphans[..|orphans| - 1], wall);
    }
  }

  // ---- the rows of an expired call in a coherent world

  lemma LiveCallIsLastInLine(w: World, c: nat)
    requires Inv(w) && c in w.db.calls && Live(w.db.calls[c])
    ensures var b := w.db.calls[c].borrower;
      b in w.dialled && w.dialled[b] != [] && w.dialled[b][|w.dialled[b]| - 1] == c
  {
    hide CallsOk, Bound, Inflight, Recorded, Accounted, KeysOk, RefsUnique;
    var k := w.db.calls[c];
    assert InLine(c, k, w.dialled);
    LiveCallIsLast(w.db.calls, c, w.db.borrowers[k.borrower], w.dialled[k.borrower]);
  }

  lemma LiveCallsShareNobody(w: World, c: nat, d: nat)
    requires Inv(w) && c in w.db.calls && d in w.db.calls && c != d && Live(w.db.calls[c]) && Live(w.db.calls[d])
    ensures w.db.calls[c].agent != w.db.calls[d].agent && w.db.calls[c].borrower != w.db.calls[d].borrower
  {
    hide Inv, Live;
    LiveCallIsLastInLine(w, c);
    LiveCallIsLastInLine(w, d);
    LiveCallIsAnchored(w, c);
    LiveCallIsAnchored(w, d);
  }

  lemma OrphanIffExpired(w: World, t: Time, c: nat)
    requires Inv(w) && c in w.db.calls
    ensures IsOrphan(w.db.calls[c], t) <==> Expired(w.db.calls[c], t)
    ensures IsOrphan(w.db.calls[c], t) ==> Live(w.db.calls[c])
  {
    hide Inv;
    Recovery.CallIsRowOk(w, c);
  }

  /** A reserved agent's lease is its call's. */
  lemma ReservedAgentExpires(w: World, t: Time, a: nat)
    requires Inv(w) && a in w.db.agents && w.db.agents[a].state.Reserved? && Before(w.db.agents[a].lease, t)
    ensures AgentExpires(w.db.calls, a, t)
  {
    Recovery.BusyAgentServes(w, a);
    var c := w.serving[a];
    LiveCallIsAnchored(w, c);
    hide Inv;
    assert Expired(w.db.calls[c], t);
  }

  lemma OrphansAreDisjoint(w: World, t: Time, orphans: seq<nat>)
    requires Inv(w) && IsOrphanList(w.db, orphans, t)
    ensures Disjoint(w.db.calls, orphans)
    ensures forall a :: Recovery.Owns(w.db.calls, orphans, a) <==> AgentExpires(w.db.calls, a, t)
    ensures forall b :: Borrows(w.db.calls, orphans, b) <==> BorrowerExpires(w.db.calls, b, t)
  {
    hide Inv, IsOrphan, Live, Expired;
    forall c | c in w.db.calls
      ensures IsOrphan(w.db.calls[c], t) <==> Expired(w.db.calls[c], t)
      ensures IsOrphan(w.db.calls[c], t) ==> Live(w.db.calls[c])
    {
      OrphanIffExpired(w, t, c);
    }
    forall i, j | 0 <= i < j < |orphans|
      ensures w.db.calls[orphans[i]].agent != w.db.calls[orphans[j]].agent
      ensures w.db.calls[orphans[i]].borrower != w.db.calls[orphans[j]].borrower
    {
      assert orphans[i] in orphans && orphans[j] in orphans;
      LiveCallsShareNobody(w, orphans[i], orphans[j]);
    }
    forall a ensures Recovery.Owns(w.db.calls, orphans, a) <==> AgentExpires(w.db.calls, a, t) {
      if AgentExpires(w.db.calls, a, t) {
        var c :| c in w.db.calls && Expired(w.db.calls[c], t) && w.db.calls[c].agent == a;
        assert c in orphans;
      }
      if Recovery.Owns(w.db.calls, orphans, a) {
        var i :| 0 <= i < |orphans| && w.db.calls[orphans[i]].agent == a;
        assert orphans[i] in orphans;
      }
    }
    forall b ensures Borrows(w.db.calls, orphans, b) <==> BorrowerExpires(w.db.calls, b, t) {
      if BorrowerExpires(w.db.calls, b, t) {
        var c :| c in w.db.calls && Expired(w.db.calls[c], t) && w.db.calls[c].borrower == b;
        assert c in orphans;
      }
      if Borrows(w.db.calls, orphans, b) {
        var i :| 0 <= i < |orphans| && w.db.calls[orphans[i]].borrower == b;
        assert orphans[i] in orphans;
      }
    }
  }

  lemma AgentSwept(before: Agent, t: Time, expires: bool)
    requires before.state.Reserved? && Before(before.lease, t) ==> expires
    ensures var mid := if expires then Release(before) else before;
      AgentReaped(before, ReleaseWrapUp(ReclaimAgent(mid, t), t), expires, t)
  {
  }

  lemma BorrowerSwept(before: Borrower, wall: Time, expires: bool)
    ensures BorrowerReaped(before, ReclaimLock(if expires then Reschedule(before, 120.0, wall) else before, wall),
                           expires, wall)
  {
  }

  /** A whole reap, row by row: exactly the calls whose lease ran out unheard of fail, whatever order they
      are found in. */
  lemma ReapSettles(w: World, t: Time, orphans: seq<nat>, wall: Time)
    requires Inv(w) && Shaped(w) && t <= w.now && IsOrphanList(w.db, orphans, t)
    ensures Reaps(w.db, TxReap(w.db, orphans, t, wall), t, wall)
  {
    hide Inv, Shaped, IsOrphan, FailAll, TxReap, Disjoint, Recovery.Owns, Borrows, AgentExpires, BorrowerExpires;
    hide AgentReaped, BorrowerReaped, ReclaimAgent, ReleaseWrapUp, ReclaimLock, Release, Reschedule, Expired;
    Lifecycle.ShapedForeignKeys(w);
    Recovery.ReapRows(w.db, orphans, t, wall);
    Recovery.FailAllKeepsEvents(w.db, orphans, wall);
    FailAllAddsNoRows(w.db, orphans, wall);
    OrphansAreDisjoint(w, t, orphans);
    Recovery.FailAllCalls(w.db, orphans, wall);
    forall c | c in w.db.calls ensures IsOrphan(w.db.calls[c], t) <==> Expired(w.db.calls[c], t) {
      OrphanIffExpired(w, t, c);
    }
    var after := TxReap(w.db, orphans, t, wall);
    forall a | a in w.db.agents
      ensures AgentReaped(w.db.agents[a], after.agents[a], AgentExpires(w.db.calls, a, t), t)
    {
      FailAllAgentRow(w.db, orphans, wall, a);
      ReservedExpiresIfOld(w, t, a);
      AgentSwept(w.db.agents[a], t, AgentExpires(w.db.calls, a, t));
    }
    forall b | b in w.db.borrowers
      ensures BorrowerReaped(w.db.borrowers[b], after.borrowers[b], BorrowerExpires(w.db.calls, b, t), wall)
    {
      FailAllBorrowerRow(w.db, orphans, wall, b);
      BorrowerSwept(w.db.borrowers[b], wall, BorrowerExpires(w.db.calls, b, t));
    }
  }

  lemma ReservedExpiresIfOld(w: World, t: Time, a: nat)
    requires Inv(w) && a in w.db.agents
    ensures w.db.agents[a].state.Reserved? && Before(w.db.agents[a].lease, t) ==> AgentExpires(w.db.calls, a, t)
  {
    hide Inv, AgentExpires;
    if w.db.agents[a].state.Reserved? && Before(w.db.agents[a].lease, t) {
      ReservedAgentExpires(w, t, a);
    }
  }

  // ---- however a call ends

  /** How long its borrower is left alone after a call that was not completed. */
  function Backoff(s: Step): Time {
    if s.Cancel? then 30.0 else if s.Reap? then 120.0 else 60.0
  }

  predicate Ends(s: Step) { s.Reject? || s.Cancel? || s.Deliver? || s.Reap? }

  /** The agent and the borrower of a call that has ended. */
  predicate SettledBy(before: Db, after: Db, c: nat, wrapUntil: Time, dueAt: Time) {
    && c in before.calls && c in after.calls
    && var (k, completed) := (before.calls[c], after.calls[c].state.Completed?);
    && k.agent in before.agents && k.agent in after.agents && k.borrower in before.borrowers
    && k.borrower in after.borrowers
    && LetGo(before.agents[k.agent], after.agents[k.agent], completed, wrapUntil)
    && Charged(before.borrowers[k.borrower], after.borrowers[k.borrower], completed, dueAt)
  }

  lemma RejectStepEnds(w: World, s: Step, c: nat)
    requires s.Reject? && Inv(w) && Shaped(w) && Enabled(w, s) && c in w.db.calls && Live(w.db.calls[c])
    requires c in Do(w, s).db.calls && Terminal(Do(w, s).db.calls[c].state)
    ensures SettledBy(w.db, Do(w, s).db, c, 0.0, s.wall + 60.0)
  {
    hide Inv, Shaped, LetGo, Charged, TxReject;
    if s.c == c {
      RejectionEnds(w, c, s.wall);
    } else {
      WorkerStepKeepsCall(w, s, c);
    }
  }

  lemma CancelStepEnds(w: World, s: Step, c: nat)
    requires s.Cancel? && Inv(w) && Shaped(w) && Enabled(w, s) && c in w.db.calls && Live(w.db.calls[c])
    requires c in Do(w, s).db.calls && Terminal(Do(w, s).db.calls[c].state)
    ensures SettledBy(w.db, Do(w, s).db, c, 0.0, s.wall + 30.0)
  {
    hide Inv, Shaped, LetGo, Charged, TxCancel;
    if s.c == c {
      CancellationEnds(w, c, s.wall);
    } else {
      WorkerStepKeepsCall(w, s, c);
    }
  }

  lemma DeliveryStepEnds(w: World, s: Step, c: nat)
    requires s.Deliver? && Inv(w) && Shaped(w) && Enabled(w, s) && c in w.db.calls && Live(w.db.calls[c])
    requires c in Do(w, s).db.calls && Terminal(Do(w, s).db.calls[c].state)
    ensures SettledBy(w.db, Do(w, s).db, c, w.now + s.wrapup, s.wall + 60.0)
  {
    hide Inv, Shaped, Do, LetGo, Charged, TxApply, WasCommitted, Settles, ComesTooLate;
    if s.c == c {
      Lifecycle.ShapedForeignKeys(w);
      DeliverySettles(w, s.e, c, s.seen, s.incoming, s.wrapup, s.wall);
      Lifecycle.DoDeliver(w, s);
    } else {
      Lifecycle.OtherDeliveryKeepsCall(w, s, c);
    }
  }

  lemma ReapStepEnds(w: World, s: Step, c: nat)
    requires s.Reap? && Inv(w) && Shaped(w) && Enabled(w, s) && c in w.db.calls && Live(w.db.calls[c])
    requires c in Do(w, s).db.calls && Terminal(Do(w, s).db.calls[c].state)
    ensures SettledBy(w.db, Do(w, s).db, c, 0.0, s.wall + 120.0)
  {
    hide Inv, Shaped, Do, Charged, TxReap, IsOrphanList, Expired;
    ReapSettles(w, s.t, s.orphans, s.wall);
    Lifecycle.DoReap(w, s);
    LiveCallIsAnchored(w, c);
    hide Anchored;
    assert Expired(w.db.calls[c], s.t);
    assert AgentExpires(w.db.calls, w.db.calls[c].agent, s.t);
    assert BorrowerExpires(w.db.calls, w.db.calls[c].borrower, s.t);
  }

  lemma InitiationEndsNothing(w: World, s: Step, c: nat)
    requires s.Initiate? && Inv(w) && Shaped(w) && Enabled(w, s) && c in w.db.calls && Live(w.db.calls[c])
    ensures c in Do(w, s).db.calls && !Terminal(Do(w, s).db.calls[c].state)
  {
    hide Inv, Shaped, TxInitiate;
    if s.c == c {
      InitiationDials(w, c, s.pcid, s.dialLease, s.wall);
    } else {
      WorkerStepKeepsCall(w, s, c);
    }
  }

  /** Whatever ends a live call frees its agent, or sends it into wrap-up, and settles its borrower: DONE
      and unlocked if the call was completed, otherwise unlocked and EXHAUSTED or due after the backoff. */
  lemma EndingSettles(w: World, s: Step, c: nat)
    requires Inv(w) && Shaped(w) && Enabled(w, s) && c in w.db.calls && Live(w.db.calls[c])
    requires c in Do(w, s).db.calls && Terminal(Do(w, s).db.calls[c].state)
    ensures Ends(s)
    ensures SettledBy(w.db, Do(w, s).db, c, if s.Deliver? then w.now + s.wrapup else 0.0, s.wall + Backoff(s))
  {
    hide Inv, Shaped, Enabled, Do, SettledBy;
    match s
    case Reject(d, wall) => RejectStepEnds(w, s, c);
    case Cancel(d, wall) => CancelStepEnds(w, s, c);
    case Deliver(e, d, seen, incoming, wrapup, wall) => DeliveryStepEnds(w, s, c);
    case Reap(t, orphans, wall) => ReapStepEnds(w, s, c);
    case Initiate(d, _, _, _) => InitiationEndsNothing(w, s, c);
    case _ => Lifecycle.UninvolvedStepKeepsCall(w, s, c);
  }

  // ---- one event from the ledger

  /** `apply_one`: an event nobody can place waits, one whose name is no state stays as it was, and any
      other does what `DeliverySettles` says of a read under the lock. */
  lemma AppliedEventSettles(w: World, e: nat, wrapup: Time, wall: Time)
    requires Inv(w) && Shaped(w) && e in w.db.events && !w.db.events[e].applied
    ensures var ev := w.db.events[e];
      var (c, incoming) := (Ledger.Lookup(w.db, ev.provider, ev.pcid), EventNames.Incoming(ev.etype));
      var after := Ledger.TxApplyOne(w.db, e, w.now, wrapup, wall);
      if c.None? then after == w.db.(events := w.db.events[e := ev.(anomaly := Some(UnknownCall))])
      else if incoming.None? then after == w.db
      else if ComesTooLate(w.db.calls[c.value], incoming.value) then
        && after == w.db.(events := after.events)
        && Settles(w.db, after, e, c.value, if incoming.value.Connected? && Unanswered(w.db.calls[c.value])
                                            then Some(IllegalTransition) else Some(OutOfOrder))
      else
        && Settles(w.db, after, e, c.value, None)
        && MovesAs(w.db, after, c.value, incoming.value, w.now + wrapup, wall)
  {
    hide Inv, Shaped, EventNames.Incoming, TxApply, ComesTooLate, Settles, MovesAs, ForeignKeys, WasCommitted;
    Lifecycle.ShapedForeignKeys(w);
    UnappliedHasNoCall(w, e);
    var ev := w.db.events[e];
    var c, incoming := Ledger.Lookup(w.db, ev.provider, ev.pcid), EventNames.Incoming(ev.etype);
    if c.Some? && incoming.Some? {
      Drains.CurrentStateWasCommitted(w, c.value);
      DeliverySettles(w, e, c.value, w.db.calls[c.value].state, incoming.value, wrapup, wall);
    }
  }
}
