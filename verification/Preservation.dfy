/** What each step of the protocol writes, and why that keeps the invariant. */
module Preservation {
  import opened Domain
  import opened Rows
  import opened Transactions
  import opened World
  import opened Protocol
  import Keys

  // ---- reads

  /** The states of a legal history climb in rank, so an old committed read is a `SeenOf` the row. */
  lemma OldReadIsSeenOf(h: seq<Entry>, current: CallState, seen: CallState)
    requires LegalHistory(h) && h[|h| - 1].state == current && !current.Answered? && WasCommitted(h, seen)
    ensures SeenOf(current, seen)
  {
    var i :| 0 <= i < |h| && h[i].state == seen;
    var p := seq(|h|, j requires 0 <= j < |h| => h[j].state);
    if i < |h| - 1 {
      LegalPathClimbs(p, i, |h| - 1);
    }
  }

  // ---- agents and borrowers on their own

  lemma IdleAgentKeepsBound(calls: map<nat, Call>, agents: map<nat, Agent>, serving: map<nat, nat>, a: nat, row: Agent)
    requires Bound(calls, agents, serving) && a !in serving && AgentRowOk(row) && !Busy(row)
    ensures Bound(calls, agents[a := row], serving)
  {
  }

  lemma AgentKeepsCalls(calls: map<nat, Call>, agents: map<nat, Agent>, borrowers: map<nat, Borrower>,
                        a: nat, row: Agent)
    requires CallsOk(calls, agents, borrowers) && (a in agents ==> row.campaign == agents[a].campaign)
    ensures CallsOk(calls, agents[a := row], borrowers)
  {
  }

  lemma IdleAgentIsUnserving(w: World, a: nat)
    requires Inv(w) && (a in w.db.agents ==> !Busy(w.db.agents[a]))
    ensures a !in w.serving
  {
  }

  lemma SetAgentKeepsInv(w: World, a: nat, row: Agent)
    requires Inv(w) && (a in w.db.agents ==> row.campaign == w.db.agents[a].campaign && !Busy(w.db.agents[a]))
    requires AgentRowOk(row) && !Busy(row)
    ensures Inv(w.(db := w.db.(agents := w.db.agents[a := row])))
  {
    IdleAgentIsUnserving(w, a);
    hide CallsOk, Bound, Numbered, Inflight, Recorded, Accounted, KeysOk, RefsUnique, AgentRowOk, Busy;
    IdleAgentKeepsBound(w.db.calls, w.db.agents, w.serving, a, row);
    AgentKeepsCalls(w.db.calls, w.db.agents, w.db.borrowers, a, row);
  }

  lemma BorrowersKeepCalls(calls: map<nat, Call>, agents: map<nat, Agent>,
                           borrowers: map<nat, Borrower>, borrowers': map<nat, Borrower>)
    requires CallsOk(calls, agents, borrowers)
    requires forall b :: b in borrowers ==> b in borrowers' && borrowers'[b].campaign == borrowers[b].campaign
    ensures CallsOk(calls, agents, borrowers')
  {
    forall c | c in calls ensures CallRowOk(calls[c]) && Placeable(calls[c], agents, borrowers') {
      assert Placeable(calls[c], agents, borrowers);
    }
  }

  lemma StandingKeepsNumbered(calls: map<nat, Call>, borrowers: map<nat, Borrower>,
                              borrowers': map<nat, Borrower>, dialled: map<nat, seq<nat>>)
    requires Numbered(calls, borrowers, dialled) && borrowers'.Keys == borrowers.Keys
    requires forall b :: b in borrowers ==> SameStanding(borrowers[b], borrowers'[b])
    ensures Numbered(calls, borrowers', dialled)
  {
    forall b | b in dialled ensures NumberedOne(calls, b, borrowers'[b], dialled[b]) {
      assert NumberedOne(calls, b, borrowers[b], dialled[b]);
    }
  }

  lemma BorrowerSweepKeepsInv(w: World, borrowers: map<nat, Borrower>)
    requires Inv(w) && borrowers.Keys == w.db.borrowers.Keys
    requires forall b :: b in borrowers ==> SameStanding(w.db.borrowers[b], borrowers[b])
    ensures Inv(w.(db := w.db.(borrowers := borrowers)))
  {
    hide CallsOk, Bound, Numbered, Inflight, Recorded, Accounted, KeysOk, RefsUnique;
    StandingKeepsNumbered(w.db.calls, w.db.borrowers, borrowers, w.dialled);
    BorrowersKeepCalls(w.db.calls, w.db.agents, w.db.borrowers, borrowers);
  }

  /** Locking, unlocking and rescheduling the same attempt leave a borrower in the same standing. */
  predicate SameStanding(x: Borrower, y: Borrower) {
    && x.campaign == y.campaign && x.attempts == y.attempts && x.maxAttempts == y.maxAttempts
    && (x.state == y.state || ((x.state.Pending? || x.state.Locked?) && (y.state.Pending? || y.state.Locked?)))
  }

  lemma NewBorrowerKeepsNumbered(calls: map<nat, Call>, borrowers: map<nat, Borrower>,
                                 dialled: map<nat, seq<nat>>, b: nat, row: Borrower)
    requires Numbered(calls, borrowers, dialled) && b !in borrowers && row.attempts == 0 && BorrowerRowOk(row, false)
    ensures Numbered(calls, borrowers[b := row], dialled[b := []])
  {
    var borrowers', dialled' := borrowers[b := row], dialled[b := []];
    forall x | x in dialled' ensures NumberedOne(calls, x, borrowers'[x], dialled'[x]) {
      if x != b {
        assert NumberedOne(calls, x, borrowers[x], dialled[x]);
      }
    }
    forall c | c in calls ensures InLine(c, calls[c], dialled') {
      assert InLine(c, calls[c], dialled);
    }
  }

  lemma AddBorrowerKeepsInv(w: World, b: nat, row: Borrower)
    requires Inv(w) && b !in w.db.borrowers && row.attempts == 0 && BorrowerRowOk(row, false)
    ensures Inv(w.(db := w.db.(borrowers := w.db.borrowers[b := row]), dialled := w.dialled[b := []]))
  {
    hide CallsOk, Bound, Numbered, Inflight, Recorded, Accounted, KeysOk, RefsUnique, BorrowerRowOk;
    NewBorrowerKeepsNumbered(w.db.calls, w.db.borrowers, w.dialled, b, row);
    BorrowersKeepCalls(w.db.calls, w.db.agents, w.db.borrowers, w.db.borrowers[b := row]);
  }

  // ---- placement

  predicate HasLiveCall(db: Db, b: nat) {
    exists c :: c in db.calls && db.calls[c].borrower == b && Live(db.calls[c])
  }

  /** The idempotency key of a borrower's next attempt is taken exactly while a call of theirs is live. */
  lemma NextKeyTakenIffLive(w: World, b: nat)
    requires Inv(w) && b in w.db.borrowers
    ensures var row := w.db.borrowers[b];
      KeyTaken(w.db, Keys.KeyOf(row.campaign, b, row.attempts + 1)) <==> HasLiveCall(w.db, b)
  {
    NextKeyTakenIffLineIsOpen(w, b);
    hide CallsOk, Bound, Numbered, Inflight, Recorded, Accounted, KeysOk, RefsUnique, KeyTaken, HasLiveCall;
    LineIsOpenIffLive(w.db, w.dialled, b);
  }

  lemma LineIsOpenIffLive(db: Db, dialled: map<nat, seq<nat>>, b: nat)
    requires Numbered(db.calls, db.borrowers, dialled) && b in db.borrowers
    ensures |dialled[b]| > db.borrowers[b].attempts <==> HasLiveCall(db, b)
  {
    hide BorrowerRowOk;
    var row, line := db.borrowers[b], dialled[b];
    assert NumberedOne(db.calls, b, row, line);
    if |line| > row.attempts {
      assert Live(db.calls[line[row.attempts]]);
    }
    if HasLiveCall(db, b) {
      var c :| c in db.calls && db.calls[c].borrower == b && Live(db.calls[c]);
      assert InLine(c, db.calls[c], dialled);
    }
  }

  lemma NextKeyTakenIffLineIsOpen(w: World, b: nat)
    requires Inv(w) && b in w.db.borrowers
    ensures var row := w.db.borrowers[b];
      KeyTaken(w.db, Keys.KeyOf(row.campaign, b, row.attempts + 1)) <==> |w.dialled[b]| > row.attempts
  {
    var row, line := w.db.borrowers[b], w.dialled[b];
    var key := Keys.KeyOf(row.campaign, b, row.attempts + 1);
    assert NumberedOne(w.db.calls, b, row, line);
    if KeyTaken(w.db, key) {
      var c :| c in w.db.calls && w.db.calls[c].key == key;
      var k := w.db.calls[c];
      Keys.KeyInjective(k.campaign, k.borrower, k.attempt, row.campaign, b, row.attempts + 1);
      assert InLine(c, k, w.dialled);
    }
    if |line| > row.attempts {
      var c := line[row.attempts];
      assert w.db.calls[c].campaign == row.campaign;
      assert w.db.calls[c].key == key;
    }
  }

  lemma NewCallKeepsNumbered(calls: map<nat, Call>, borrowers: map<nat, Borrower>, dialled: map<nat, seq<nat>>,
                             c: nat, call: Call, row: Borrower)
    requires Numbered(calls, borrowers, dialled) && c !in calls && call.borrower in borrowers && Live(call)
    requires var prior := borrowers[call.borrower];
      && |dialled[call.borrower]| == prior.attempts && call.attempt == prior.attempts + 1
      && SameStanding(prior, row) && (row.state.Pending? || row.state.Locked?)
    ensures Numbered(calls[c := call], borrowers[call.borrower := row],
                     dialled[call.borrower := dialled[call.borrower] + [c]])
  {
    var b := call.borrower;
    var calls', borrowers' := calls[c := call], borrowers[b := row];
    var dialled' := dialled[b := dialled[b] + [c]];
    forall x | x in dialled' ensures NumberedOne(calls', x, borrowers'[x], dialled'[x]) {
      assert NumberedOne(calls, x, borrowers[x], dialled[x]);
    }
    forall d | d in calls' ensures InLine(d, calls'[d], dialled') {
      if d != c {
        assert InLine(d, calls[d], dialled);
      }
    }
  }

  lemma NewCallKeepsBound(calls: map<nat, Call>, agents: map<nat, Agent>, serving: map<nat, nat>,
                          c: nat, call: Call, a: Agent)
    requires Bound(calls, agents, serving) && c !in calls && Live(call) && AgentFollows(c, call, a)
    requires call.agent in agents && call.agent !in serving
    ensures Bound(calls[c := call], agents[call.agent := a], serving[call.agent := c])
  {
  }

  lemma NewCallKeepsAccounted(events: map<nat, Event>, history: map<nat, seq<Entry>>, c: nat, h: seq<Entry>)
    requires Accounted(events, history) && c !in history
    ensures Accounted(events, history[c := h])
  {
    var history' := history[c := h];
    forall e | e in events ensures AccountedOne(e, events[e], history') {
      assert AccountedOne(e, events[e], history);
      if CleanlyApplied(events[e]) {
        var i :| Issued(e, history[events[e].call.value], i);
        assert Issued(e, history'[events[e].call.value], i);
      }
    }
  }

  lemma NewCallKeepsInflight(now: Time, calls: map<nat, Call>, inflight: map<nat, Allocation>,
                             c: nat, call: Call, k: Allocation)
    requires Inflight(now, calls, inflight) && c !in calls && InflightOne(now, call, k)
    ensures Inflight(now, calls[c := call], inflight[c := k])
  {
  }

  lemma NewCallKeepsCalls(calls: map<nat, Call>, agents: map<nat, Agent>, borrowers: map<nat, Borrower>,
                          c: nat, call: Call, a: Agent, b: Borrower)
    requires CallsOk(calls, agents, borrowers) && CallRowOk(call) && Placeable(call, agents, borrowers)
    requires a.campaign == agents[call.agent].campaign && b.campaign == borrowers[call.borrower].campaign
    ensures CallsOk(calls[c := call], agents[call.agent := a], borrowers[call.borrower := b])
  {
  }

  lemma NewCallKeepsRecorded(calls: map<nat, Call>, history: map<nat, seq<Entry>>, c: nat, call: Call)
    requires Recorded(calls, history) && c !in calls && call.state.Reserved?
    ensures Recorded(calls[c := call], history[c := [Entry(CallState.Reserved, ByWorker)]])
  {
  }

  lemma NewCallKeepsRefs(calls: map<nat, Call>, c: nat, call: Call)
    requires RefsUnique(calls) && c !in calls && call.pcid.None?
    ensures RefsUnique(calls[c := call])
  {
  }

  /** The rows of a new placement, before and after. */
  predicate PlacementRows(call: Call, a0: Agent, b0: Borrower, a: Agent, b: Borrower, provider: string,
                          lease: Time, wall: Time)
  {
    && a0.state.Available? && ReserveCas(a0, a0.version, lease) == Some(a)
    && Claimable(b0, wall) && b == Claim(b0, lease)
    && call == NewCall(a0.campaign, call.agent, call.borrower, provider, b0.attempts + 1, lease)
    && a0.campaign == b0.campaign
  }

  lemma PlacementRowsFollow(c: nat, call: Call, a0: Agent, b0: Borrower, a: Agent, b: Borrower, provider: string,
                            lease: Time, wall: Time)
    requires PlacementRows(call, a0, b0, a, b, provider, lease, wall) && a0.call.None?
    ensures CallRowOk(call) && AgentFollows(c, call, a) && call.pcid.None? && call.state.Reserved?
    ensures a.campaign == a0.campaign && b.campaign == b0.campaign && call.attempt == b0.attempts + 1
    ensures SameStanding(b0, b) && b.state.Locked? && call.lease == Some(lease)
  {
  }

  lemma NewCallKeepsInv(w: World, c: nat, call: Call, a: Agent, b: Borrower, provider: string,
                        lease: Time, wall: Time)
    requires Inv(w) && c !in w.db.calls && Placeable(call, w.db.agents, w.db.borrowers)
    requires PlacementRows(call, w.db.agents[call.agent], w.db.borrowers[call.borrower], a, b, provider, lease, wall)
    requires !KeyTaken(w.db, call.key)
    ensures call.borrower in w.dialled
    ensures Inv(Placed(w, w.db.(calls := w.db.calls[c := call], agents := w.db.agents[call.agent := a],
                                borrowers := w.db.borrowers[call.borrower := b]), c, lease))
  {
    hide Inv, NumberedOne;
    NextKeyTakenIffLineIsOpen(w, call.borrower);
    BorrowerInLine(w, call.borrower);
    IdleAgentIsUnserving(w, call.agent);
    IdleAgentHasNoCall(w, call.agent);
    PlacementRowsFollow(c, call, w.db.agents[call.agent], w.db.borrowers[call.borrower], a, b, provider, lease, wall);
    hide KeyTaken, SameStanding, CallRowOk, AgentFollows;
    NewRowsKeepInv(w, c, call, a, b, lease);
  }

  lemma NewRowsKeepInv(w: World, c: nat, call: Call, a: Agent, b: Borrower, lease: Time)
    requires Inv(w) && c !in w.db.calls && Placeable(call, w.db.agents, w.db.borrowers)
    requires call.agent !in w.serving && call.borrower in w.dialled
    requires |w.dialled[call.borrower]| == w.db.borrowers[call.borrower].attempts
    requires CallRowOk(call) && call.state.Reserved? && call.pcid.None? && call.lease == Some(lease)
    requires call.attempt == w.db.borrowers[call.borrower].attempts + 1
    requires call.key == Keys.KeyOf(call.campaign, call.borrower, call.attempt)
    requires AgentFollows(c, call, a) && a.campaign == w.db.agents[call.agent].campaign
    requires SameStanding(w.db.borrowers[call.borrower], b) && b.state.Locked?
    requires b.campaign == w.db.borrowers[call.borrower].campaign
    ensures Inv(Placed(w, w.db.(calls := w.db.calls[c := call], agents := w.db.agents[call.agent := a],
                                borrowers := w.db.borrowers[call.borrower := b]), c, lease))
  {
    hide CallsOk, Bound, Numbered, Inflight, Recorded, Accounted, KeysOk, RefsUnique, CallRowOk, AgentFollows,
      SameStanding;
    HistoryKnown(w);
    NewCallKeepsNumbered(w.db.calls, w.db.borrowers, w.dialled, c, call, b);
    NewCallKeepsBound(w.db.calls, w.db.agents, w.serving, c, call, a);
    NewCallKeepsAccounted(w.db.events, w.history, c, [Entry(CallState.Reserved, ByWorker)]);
    NewCallKeepsInflight(w.now, w.db.calls, w.inflight, c, call, Allocation(call.agent, call.borrower, lease));
    NewCallKeepsCalls(w.db.calls, w.db.agents, w.db.borrowers, c, call, a, b);
    NewCallKeepsRecorded(w.db.calls, w.history, c, call);
    NewCallKeepsRefs(w.db.calls, c, call);
    NewCallKeepsKeys(w.db.calls, c, call);
  }

  lemma NewCallKeepsKeys(calls: map<nat, Call>, c: nat, call: Call)
    requires KeysOk(calls) && call.key == Keys.KeyOf(call.campaign, call.borrower, call.attempt)
    ensures KeysOk(calls[c := call])
  {
  }

  lemma BorrowerInLine(w: World, b: nat)
    requires Inv(w) && b in w.db.borrowers
    ensures b in w.dialled && NumberedOne(w.db.calls, b, w.db.borrowers[b], w.dialled[b])
    ensures w.db.borrowers[b].attempts <= |w.dialled[b]| <= w.db.borrowers[b].attempts + 1
  {
  }

  lemma IdleAgentHasNoCall(w: World, a: nat)
    requires Inv(w) && a in w.db.agents && !Busy(w.db.agents[a])
    ensures w.db.agents[a].call.None?
  {
    assert AgentRowOk(w.db.agents[a]);
  }

  lemma PlaceKeepsInv(w: World, campaign: nat, pick: Pick, lease: Time, wall: Time)
    requires Inv(w) && PickOk(w.db, campaign, pick, wall) && w.dialled.Keys == w.db.borrowers.Keys
    ensures Inv(AfterPlace(w, campaign, pick, lease, wall))
  {
    hide Inv;
    var (db, created) := TxReserve(w.db, campaign, pick, lease, wall);
    if created.Some? {
      var (a, b, c) := (pick.agent.value, pick.borrower.value, created.value);
      NewCallKeepsInv(w, c, db.calls[c], db.agents[a], db.borrowers[b], pick.provider.value, lease, wall);
    } else if pick.agent.Some? && pick.version == w.db.agents[pick.agent.value].version {
      var a := pick.agent.value;
      var freed := Release(ReserveCas(w.db.agents[a], pick.version, lease).value);
      SetAgentKeepsInv(w, a, freed);
      if pick.borrower.Some? && pick.provider.None? {
        BorrowerSweepKeepsInv(w.(db := w.db.(agents := w.db.agents[a := freed])), db.borrowers);
      }
    }
  }

  // ---- transitions of a live call

  lemma ForgetKeepsInv(w: World, c: nat)
    requires Inv(w)
    ensures Inv(Forget(w, c))
  {
  }

  /** A live call's borrower still has an attempt left, and its agent row corresponds to it. */
  ghost predicate Anchored(w: World, c: nat) {
    && c in w.db.calls && CallRowOk(w.db.calls[c]) && Placeable(w.db.calls[c], w.db.agents, w.db.borrowers)
    && var k := w.db.calls[c];
    && Linked(c, k, w.db.agents[k.agent]) && AgentRowOk(w.db.agents[k.agent])
    && BorrowerRowOk(w.db.borrowers[k.borrower], true) && k.attempt == w.db.borrowers[k.borrower].attempts + 1
    && k.agent in w.serving && w.serving[k.agent] == c
  }

  lemma LiveCallIsAnchored(w: World, c: nat)
    requires Inv(w) && c in w.db.calls && Live(w.db.calls[c])
    ensures Anchored(w, c)
  {
    var k := w.db.calls[c];
    assert InLine(c, k, w.dialled);
    assert NumberedOne(w.db.calls, k.borrower, w.db.borrowers[k.borrower], w.dialled[k.borrower]);
  }

  lemma OnlyReservedIsInflight(w: World, c: nat)
    requires Inv(w) && c in w.inflight
    ensures c in w.db.calls && InflightOne(w.now, w.db.calls[c], w.inflight[c])
    ensures Timely(w, c) ==> w.db.calls[c].state.Reserved?
    ensures w.db.calls[c].state.Reserved? || Terminal(w.db.calls[c].state)
  {
  }

  lemma HistoryKnown(w: World)
    requires Inv(w)
    ensures w.history.Keys == w.db.calls.Keys
  {
  }

  lemma CallHistory(w: World, c: nat)
    requires Inv(w) && c in w.db.calls
    ensures c in w.history && LegalHistory(w.history[c])
    ensures w.history[c][|w.history[c]| - 1].state == w.db.calls[c].state
  {
  }

  /** `w` with call c moved to db's rows is `Move`, so the invariant is kept. */
  lemma TrackIsMove(w: World, db: Db, c: nat, states: seq<CallState>, cause: Cause)
    requires Inv(w) && c in w.db.calls && Live(w.db.calls[c])
    requires c in w.inflight ==> w.now > w.inflight[c].lease && c in db.calls && Terminal(db.calls[c].state)
    requires c in db.calls && var call := db.calls[c];
      && call.agent in w.db.agents && call.agent in db.agents
      && call.borrower in w.db.borrowers && call.borrower in db.borrowers
      && db == w.db.(calls := w.db.calls[c := call], agents := w.db.agents[call.agent := db.agents[call.agent]],
                     borrowers := w.db.borrowers[call.borrower := db.borrowers[call.borrower]])
      && RowsFollow(c, w.db.calls[c], w.db.agents[call.agent], w.db.borrowers[call.borrower],
                    call, db.agents[call.agent], db.borrowers[call.borrower], states)
    requires RefOk(w.db, c, db.calls[c])
    ensures c in w.history && Inv(Track(w, db, c, states, cause))
  {
    hide Inv;
    HistoryKnown(w);
    hide RowsFollow, RefOk;
    var call := db.calls[c];
    MoveKeepsInv(w, c, call, db.agents[call.agent], db.borrowers[call.borrower], states, cause);
    RowsFollowWrites(c, w.db.calls[c], w.db.agents[call.agent], w.db.borrowers[call.borrower],
                     call, db.agents[call.agent], db.borrowers[call.borrower], states);
  }

  lemma RowsFollowWrites(c: nat, k: Call, a0: Agent, b0: Borrower, call: Call, a: Agent, b: Borrower,
                         states: seq<CallState>)
    requires RowsFollow(c, k, a0, b0, call, a, b, states)
    ensures states != []
  {
  }

  /** Any terminal write of a live call, with the agent released or wrapping up and the borrower advanced. */
  lemma TerminalRowsFollow(c: nat, k: Call, a0: Agent, b0: Borrower, call: Call, a: Agent, b: Borrower)
    requires CallRowOk(k) && Live(k) && SameIdentity(k, call) && call.pcid == k.pcid
    requires Terminal(call.state) && call.rank == 6 && call.terminalAt.Some?
    requires a.campaign == a0.campaign && a.call.None?
    requires a.state.WrapUp? || (a.state.Available? && a.lease.None?)
    requires BorrowerRowOk(b0, true)
    requires b == MarkDone(b0) || exists backoff, wall :: b == Reschedule(b0, backoff, wall)
    ensures RowsFollow(c, k, a0, b0, call, a, b, [call.state])
  {
  }

  lemma RejectKeepsInv(w: World, c: nat, wall: Time)
    requires Inv(w) && Addressable(w, c) && w.db.calls[c].state.Reserved?
    ensures Inv(AfterReject(w, c, wall))
  {
    hide Inv;
    var v := Forget(w, c);
    var k := w.inflight[c];
    ForgetKeepsInv(w, c);
    OnlyReservedIsInflight(w, c);
    LiveCallIsAnchored(v, c);
    var db := TxReject(w.db, c, k.agent, k.borrower, wall);
    assert db.borrowers[k.borrower] == Reschedule(w.db.borrowers[k.borrower], 60.0, wall);
    TerminalRowsFollow(c, w.db.calls[c], w.db.agents[k.agent], w.db.borrowers[k.borrower],
                       db.calls[c], db.agents[k.agent], db.borrowers[k.borrower]);
    hide RowsFollow;
    TrackIsMove(v, db, c, [CallState.Failed], ByWorker);
  }

  lemma InitiateKeepsInv(w: World, c: nat, pcid: string, dialLease: Time, wall: Time)
    requires Inv(w) && Addressable(w, c) && w.db.calls[c].state.Reserved?
    ensures Inv(AfterInitiate(w, c, pcid, dialLease, wall))
  {
    hide Inv;
    var v := Forget(w, c);
    var k := w.inflight[c];
    ForgetKeepsInv(w, c);
    OnlyReservedIsInflight(w, c);
    LiveCallIsAnchored(v, c);
    if !RefTaken(w.db, c, w.db.calls[c].provider, pcid) {
      var db := TxInitiate(w.db, c, k.agent, pcid, dialLease, wall);
      assert db.borrowers[k.borrower := db.borrowers[k.borrower]] == w.db.borrowers;
      TrackIsMove(v, db, c, [CallState.Initiated], ByWorker);
    }
  }

  lemma CancelKeepsInv(w: World, c: nat, wall: Time)
    requires Inv(w) && c in w.db.calls && c in w.history && ForeignKeys(w.db)
    ensures Inv(AfterCancel(w, c, wall))
  {
    hide Inv;
    var k := w.db.calls[c];
    if Unanswered(k) {
      var db := TxCancel(w.db, c, wall);
      LiveCallIsAnchored(w, c);
      if c in w.inflight {
        OnlyReservedIsInflight(w, c);
      }
      assert db.borrowers[k.borrower] == Reschedule(w.db.borrowers[k.borrower], 30.0, wall);
      TerminalRowsFollow(c, k, w.db.agents[k.agent], w.db.borrowers[k.borrower],
                         db.calls[c], db.agents[k.agent], db.borrowers[k.borrower]);
      hide RowsFollow;
      TrackIsMove(w, db, c, [CallState.Cancelled], ByPullback);
    } else {
      NoMove(w, w.db, c, ByPullback);
    }
  }

  /** A transaction that writes no call state leaves the records alone. */
  lemma NoMove(w: World, db: Db, c: nat, cause: Cause)
    requires c in w.history && c in db.calls
    ensures Track(w, db, c, [], cause) == w.(db := db)
  {
    assert w.history[c] + Entries([], cause) == w.history[c];
    assert w.history[c := w.history[c]] == w.history;
  }

  // ---- events

  lemma MarkKeepsInv(w: World, e: nat, row: Event)
    requires Inv(w) && AccountedOne(e, row, w.history)
    ensures Inv(w.(db := w.db.(events := w.db.events[e := row])))
  {
    hide CallsOk, Bound, Numbered, Inflight, Recorded, KeysOk, RefsUnique, AccountedOne;
  }

  lemma UnappliedHasNoCall(w: World, e: nat)
    requires Inv(w) && e in w.db.events && !w.db.events[e].applied
    ensures w.db.events[e].call.None?
  {
    assert AccountedOne(e, w.db.events[e], w.history);
  }

  /** What moving call c has to leave in the tables. */
  ghost predicate MovedRows(w: World, c: nat, incoming: CallState, db: Db)
    requires Anchored(w, c)
  {
    && c in db.calls
    && var (k, call) := (w.db.calls[c], db.calls[c]);
    && call.agent in db.agents && call.borrower in db.borrowers && call.agent == k.agent && call.borrower == k.borrower
    && call.state == (if incoming.Answered? then CallState.Connected else incoming)
    && db == w.db.(calls := w.db.calls[c := call], agents := w.db.agents[call.agent := db.agents[call.agent]],
                   borrowers := w.db.borrowers[call.borrower := db.borrowers[call.borrower]])
    && RowsFollow(c, k, w.db.agents[call.agent], w.db.borrowers[call.borrower], call, db.agents[call.agent],
                  db.borrowers[call.borrower],
                  if incoming.Answered? then [CallState.Answered, CallState.Connected] else [incoming])
    && call.pcid == k.pcid
  }

  lemma EndingFollows(w: World, c: nat, incoming: CallState, wrapup: Time, wall: Time)
    requires Anchored(w, c) && ForeignKeys(w.db) && w.db.calls[c].rank < Rank(incoming) && Terminal(incoming)
    requires w.db.calls[c].pcid.Some? && incoming in LegalNext(w.db.calls[c].state)
    ensures var k := w.db.calls[c];
      var row := Advance(k, incoming, k.pcid, None, None, wall).value;
      MovedRows(w, c, incoming, Transition(w.db, c, row, incoming, w.now, wrapup, wall))
  {
    var k := w.db.calls[c];
    var db := Transition(w.db, c, Advance(k, incoming, k.pcid, None, None, wall).value, incoming, w.now, wrapup, wall);
    TerminalRowsFollow(c, k, w.db.agents[k.agent], w.db.borrowers[k.borrower],
                       db.calls[c], db.agents[k.agent], db.borrowers[k.borrower]);
  }

  lemma AnswerFollows(w: World, c: nat, wrapup: Time, wall: Time)
    requires Anchored(w, c) && ForeignKeys(w.db) && w.db.calls[c].rank < Rank(CallState.Answered)
    requires w.db.calls[c].pcid.Some? && CallState.Answered in LegalNext(w.db.calls[c].state)
    ensures var k := w.db.calls[c];
      var row := Advance(k, CallState.Answered, k.pcid, None, None, wall).value;
      MovedRows(w, c, CallState.Answered, Transition(w.db, c, row, CallState.Answered, w.now, wrapup, wall))
  {
    var k := w.db.calls[c];
    assert Bridgeable(w.db, c);
    assert w.db.borrowers[k.borrower := w.db.borrowers[k.borrower]] == w.db.borrowers;
  }

  lemma RingFollows(w: World, c: nat, incoming: CallState, wrapup: Time, wall: Time)
    requires Anchored(w, c) && ForeignKeys(w.db) && w.db.calls[c].rank < Rank(incoming)
    requires !Terminal(incoming) && !incoming.Answered?
    requires w.db.calls[c].pcid.Some? && incoming in LegalNext(w.db.calls[c].state)
    ensures var k := w.db.calls[c];
      var row := Advance(k, incoming, k.pcid, None, None, wall).value;
      MovedRows(w, c, incoming, Transition(w.db, c, row, incoming, w.now, wrapup, wall))
  {
    var k := w.db.calls[c];
    assert w.db.borrowers[k.borrower := w.db.borrowers[k.borrower]] == w.db.borrowers;
    assert w.db.agents[k.agent := w.db.agents[k.agent]] == w.db.agents;
  }

  /** The three rows of a call an event moves, read under the row lock. The bridge always succeeds. */
  lemma TransitionRowsFollow(w: World, c: nat, incoming: CallState, wrapup: Time, wall: Time)
    requires Anchored(w, c) && ForeignKeys(w.db) && incoming in LegalNext(w.db.calls[c].state)
    requires w.db.calls[c].pcid.Some?
    ensures var k := w.db.calls[c];
      && k.rank < Rank(incoming)
      && var row := Advance(k, incoming, k.pcid, None, None, wall).value;
      MovedRows(w, c, incoming, Transition(w.db, c, row, incoming, w.now, wrapup, wall))
  {
    CanApplyIsTheTable(w.db.calls[c].state, incoming);
    assert w.db.calls[c].rank == Rank(w.db.calls[c].state);
    hide Anchored, MovedRows, Transition, LegalNext, ForeignKeys;
    if Terminal(incoming) {
      EndingFollows(w, c, incoming, wrapup, wall);
    } else if incoming.Answered? {
      AnswerFollows(w, c, wrapup, wall);
    } else {
      RingFollows(w, c, incoming, wrapup, wall);
    }
  }

  lemma CallIsCommitted(w: World, c: nat)
    requires Inv(w) && c in w.db.calls
    ensures w.db.calls[c].rank == Rank(w.db.calls[c].state)
    ensures !w.db.calls[c].state.Answered? && !w.db.calls[c].state.Queued?
  {
    assert CallRowOk(w.db.calls[c]);
  }

  /** What one delivered event does to the call: the guards, on whatever old state was read, let the
      row move exactly when the table allows it from the row's own state. */
  lemma DeliverMovesIffLegal(w: World, c: nat, seen: CallState, incoming: CallState)
    requires Inv(w) && c in w.db.calls && c in w.history && WasCommitted(w.history[c], seen)
    ensures var k := w.db.calls[c];
      (CanApply(seen, incoming).Apply? && k.rank < Rank(incoming)) <==> incoming in LegalNext(k.state)
    ensures incoming in LegalNext(w.db.calls[c].state) ==> Live(w.db.calls[c])
  {
    hide Inv, LegalHistory, WasCommitted, SeenOf, CanApply, LegalNext;
    CallHistory(w, c);
    CallIsCommitted(w, c);
    OldReadIsSeenOf(w.history[c], w.db.calls[c].state, seen);
    StaleGuardIsFreshGuard(w.db.calls[c].state, seen, incoming);
    CanApplyIsTheTable(w.db.calls[c].state, incoming);
  }

  /** Both guards let the event through: its transition happens, and the ledger row is marked. */
  lemma AppliedIsTransition(db: Db, e: nat, c: nat, seen: CallState, incoming: CallState,
                            now: Time, wrapup: Time, wall: Time)
    requires e in db.events && c in db.calls && ForeignKeys(db)
    requires CanApply(seen, incoming).Apply? && db.calls[c].rank < Rank(incoming)
    ensures var row := Advance(db.calls[c], incoming, db.events[e].pcid, None, None, wall).value;
      var moved := Transition(db, c, row, incoming, now, wrapup, wall);
      e in moved.events
      && TxApply(db, e, c, seen, incoming, now, wrapup, wall) == Mark(moved, e, true, None, Some(c))
  {
    hide CanApply, Mark;
  }

  /** One of the guards stops it: only the ledger row changes. */
  lemma SkippedIsMark(db: Db, e: nat, c: nat, seen: CallState, incoming: CallState,
                      now: Time, wrapup: Time, wall: Time)
    requires e in db.events && c in db.calls && ForeignKeys(db)
    requires !(CanApply(seen, incoming).Apply? && db.calls[c].rank < Rank(incoming))
    ensures var after := TxApply(db, e, c, seen, incoming, now, wrapup, wall);
      && e in after.events && after.events[e].applied && after.events[e].anomaly.Some?
      && after == db.(events := db.events[e := after.events[e]])
  {
    hide Transition, CanApply;
  }

  function HopStates(incoming: CallState): seq<CallState> {
    if incoming.Answered? then [CallState.Answered, CallState.Connected] else [incoming]
  }

  /** The world after a delivered event moved its call, before the ledger row is marked. */
  function Moved(w: World, e: nat, c: nat, incoming: CallState, wrapup: Time, wall: Time): World
    requires c in w.db.calls && c in w.history && ForeignKeys(w.db) && w.db.calls[c].rank < Rank(incoming)
  {
    var row := Advance(w.db.calls[c], incoming, w.db.calls[c].pcid, None, None, wall).value;
    Track(w, Transition(w.db, c, row, incoming, w.now, wrapup, wall), c, HopStates(incoming), ByEvent(e))
  }

  lemma MovedKeepsInv(w: World, e: nat, c: nat, incoming: CallState, wrapup: Time, wall: Time)
    requires Inv(w) && c in w.db.calls && c in w.history && ForeignKeys(w.db)
    requires w.db.calls[c].pcid.Some? && incoming in LegalNext(w.db.calls[c].state)
    ensures w.db.calls[c].rank < Rank(incoming)
    ensures var v := Moved(w, e, c, incoming, wrapup, wall);
      && Inv(v) && v.db.calls[c].state == (if incoming.Answered? then CallState.Connected else incoming)
  {
    hide Inv;
    LiveCallIsAnchored(w, c);
    if c in w.inflight {
      OnlyReservedIsInflight(w, c);
    }
    TransitionRowsFollow(w, c, incoming, wrapup, wall);
    var row := Advance(w.db.calls[c], incoming, w.db.calls[c].pcid, None, None, wall).value;
    var db := Transition(w.db, c, row, incoming, w.now, wrapup, wall);
    hide RowsFollow, Transition;
    TrackIsMove(w, db, c, HopStates(incoming), ByEvent(e));
  }

  lemma MovedIsIssued(w: World, e: nat, c: nat, incoming: CallState, wrapup: Time, wall: Time)
    requires c in w.db.calls && c in w.history && ForeignKeys(w.db) && CallRowOk(w.db.calls[c])
    requires w.db.calls[c].rank < Rank(incoming) && incoming in LegalNext(w.db.calls[c].state)
    requires !w.db.calls[c].state.Reserved?
    ensures Issued(e, Moved(w, e, c, incoming, wrapup, wall).history[c], |w.history[c]|)
  {
    hide Transition, Advance;
    var more := Entries(HopStates(incoming), ByEvent(e));
    assert (w.history[c] + more)[|w.history[c]|] == more[0];
  }

  lemma DeliverIsMovedAndMarked(w: World, e: nat, c: nat, seen: CallState, incoming: CallState,
                                wrapup: Time, wall: Time)
    requires c in w.db.calls && c in w.history && ForeignKeys(w.db) && e in w.db.events
    requires CanApply(seen, incoming).Apply? && w.db.calls[c].rank < Rank(incoming)
    requires w.db.events[e].pcid == w.db.calls[c].pcid && w.db.calls[c].pcid.Some?
    requires incoming.Answered? ==> Bridgeable(w.db, c)
    ensures var v := Moved(w, e, c, incoming, wrapup, wall);
      && e in v.db.events
      && AfterDeliver(w, e, c, seen, incoming, wrapup, wall)
         == v.(db := Mark(v.db, e, true, None, Some(c)))
  {
  }

  lemma AppliedKeepsInv(w: World, e: nat, c: nat, seen: CallState, incoming: CallState, wrapup: Time, wall: Time)
    requires Inv(w) && ForeignKeys(w.db) && e in w.db.events
    requires c in w.history && c in w.db.calls && Refers(w.db.events[e], w.db.calls[c])
    requires incoming in LegalNext(w.db.calls[c].state) && 2 <= w.db.calls[c].rank < Rank(incoming)
    requires CanApply(seen, incoming).Apply? && !w.db.events[e].applied
    ensures Inv(AfterDeliver(w, e, c, seen, incoming, wrapup, wall))
  {
    hide Inv, ForeignKeys, LegalNext, CanApply, Issued;
    UnappliedHasNoCall(w, e);
    MovedKeepsInv(w, e, c, incoming, wrapup, wall);
    CallIsCommitted(w, c);
    CanApplyIsTheTable(w.db.calls[c].state, incoming);
    LiveCallIsAnchored(w, c);
    MovedIsIssued(w, e, c, incoming, wrapup, wall);
    DeliverIsMovedAndMarked(w, e, c, seen, incoming, wrapup, wall);
    var v := Moved(w, e, c, incoming, wrapup, wall);
    hide Moved, AfterDeliver, Anchored;
    MarkKeepsInv(v, e, Mark(v.db, e, true, None, Some(c)).events[e]);
  }

  lemma SkippedKeepsInv(w: World, e: nat, c: nat, seen: CallState, incoming: CallState, wrapup: Time, wall: Time)
    requires Inv(w) && ForeignKeys(w.db) && e in w.db.events && c in w.history && c in w.db.calls
    requires !(CanApply(seen, incoming).Apply? && w.db.calls[c].rank < Rank(incoming))
    ensures Inv(AfterDeliver(w, e, c, seen, incoming, wrapup, wall))
  {
    hide Inv, CanApply, ForeignKeys, TxApply;
    SkippedIsMark(w.db, e, c, seen, incoming, w.now, wrapup, wall);
    var db := TxApply(w.db, e, c, seen, incoming, w.now, wrapup, wall);
    NoMove(w, db, c, ByEvent(e));
    MarkKeepsInv(w, e, db.events[e]);
  }

  lemma DeliverKeepsInv(w: World, e: nat, c: nat, seen: CallState, incoming: CallState, wrapup: Time, wall: Time)
    requires Inv(w) && ForeignKeys(w.db) && e in w.db.events && !w.db.events[e].applied
    requires c in w.history && c in w.db.calls && Refers(w.db.events[e], w.db.calls[c])
    requires WasCommitted(w.history[c], seen)
    ensures Inv(AfterDeliver(w, e, c, seen, incoming, wrapup, wall))
  {
    hide Inv, ForeignKeys, LegalNext, CanApply, AfterDeliver;
    DeliverMovesIffLegal(w, c, seen, incoming);
    if incoming in LegalNext(w.db.calls[c].state) {
      SeenIsDialled(w, c, seen);
      AppliedKeepsInv(w, e, c, seen, incoming, wrapup, wall);
    } else {
      SkippedKeepsInv(w, e, c, seen, incoming, wrapup, wall);
    }
  }

  lemma SeenIsDialled(w: World, c: nat, seen: CallState)
    requires Inv(w) && c in w.db.calls && c in w.history && WasCommitted(w.history[c], seen)
    ensures 2 <= w.db.calls[c].rank
  {
    hide Inv, LegalHistory, WasCommitted;
    CallHistory(w, c);
    CallIsCommitted(w, c);
    OldReadIsSeenOf(w.history[c], w.db.calls[c].state, seen);
  }

  // ---- which steps write the calls table

  /** Steps on the rosters, the ledger and the clock. */
  predicate Quiet(s: Step) {
    s.AddAgent? || s.AddBorrower? || s.SetPresence? || s.Crash? || s.Ingest? || s.Unknown? || s.GiveUp? || s.Elapse?
  }

  lemma QuietStepKeepsCalls(w: World, s: Step)
    requires Shaped(w) && Enabled(w, s) && Quiet(s)
    ensures Do(w, s).db.calls == w.db.calls
  {
    hide Enabled, Shaped;
  }

  /** A placement adds at most one call, RESERVED, and leaves the others. */
  lemma PlaceAddsACall(w: World, s: Step, c: nat)
    requires Shaped(w) && Enabled(w, s) && s.Place?
    ensures c in w.db.calls ==> c in Do(w, s).db.calls && Do(w, s).db.calls[c] == w.db.calls[c]
    ensures c in Do(w, s).db.calls && c !in w.db.calls ==> Do(w, s).db.calls[c].state.Reserved?
  {
  }

  /** A worker's or the pullback's step writes only its own call. */
  lemma WorkerStepKeepsCall(w: World, s: Step, c: nat)
    requires Shaped(w) && Enabled(w, s) && c in w.db.calls && (s.Reject? || s.Initiate? || s.Cancel?) && s.c != c
    ensures c in Do(w, s).db.calls && Do(w, s).db.calls[c] == w.db.calls[c]
  {
    WorkerStepAddresses(w, s);
    hide AfterReject, AfterInitiate, AfterCancel, Addressable, Shaped, ForeignKeys, Enabled;
    if s.Reject? {
      RejectKeepsOthers(w, s.c, s.wall, c);
    } else if s.Initiate? {
      InitiateKeepsOthers(w, s.c, s.pcid, s.dialLease, s.wall, c);
    } else {
      CancelKeepsOthers(w, s.c, s.wall, c);
    }
  }

  /** The rows these steps write are there. */
  lemma WorkerStepAddresses(w: World, s: Step)
    requires Shaped(w) && Enabled(w, s)
    ensures s.Reject? || s.Initiate? ==> Addressable(w, s.c)
    ensures s.Cancel? ==> s.c in w.db.calls && s.c in w.history && ForeignKeys(w.db)
  {
    hide Addressable, ForeignKeys;
  }

  lemma RejectKeepsOthers(w: World, d: nat, wall: Time, c: nat)
    requires Addressable(w, d) && c in w.db.calls && c != d
    ensures var after := AfterReject(w, d, wall).db.calls; c in after && after[c] == w.db.calls[c]
  {
  }

  lemma InitiateKeepsOthers(w: World, d: nat, pcid: string, dialLease: Time, wall: Time, c: nat)
    requires Addressable(w, d) && c in w.db.calls && c != d
    ensures var after := AfterInitiate(w, d, pcid, dialLease, wall).db.calls; c in after && after[c] == w.db.calls[c]
  {
    hide RefTaken;
  }

  lemma CancelKeepsOthers(w: World, d: nat, wall: Time, c: nat)
    requires d in w.db.calls && d in w.history && ForeignKeys(w.db) && c in w.db.calls && c != d
    ensures var after := AfterCancel(w, d, wall).db.calls; c in after && after[c] == w.db.calls[c]
  {
  }
}
