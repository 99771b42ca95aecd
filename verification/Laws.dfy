/** What every reachable state promises, said of the tables alone. */
module Laws {
  import opened Domain
  import opened Rows
  import opened Transactions
  import opened World
  import opened Protocol
  import opened Preservation
  import opened Runs
  import opened Counters
  import Sizes

  // ---- agents and calls

  /** Live calls and busy agents are in one-to-one correspondence, and each pair of rows matches. */
  ghost predicate Corresponds(db: Db) {
    && (forall c :: c in db.calls && Live(db.calls[c]) ==>
      db.calls[c].agent in db.agents && Linked(c, db.calls[c], db.agents[db.calls[c].agent]))
    && (forall c, d :: c in db.calls && d in db.calls && SameLiveAgent(db.calls[c], db.calls[d]) ==> c == d)
    && (forall a :: a in db.agents && Busy(db.agents[a]) ==> HasCall(db, a))
    && (forall a :: a in db.agents && db.agents[a].call.Some? ==> db.agents[a].state.Dialing?)
  }

  predicate SameLiveAgent(k: Call, l: Call) { Live(k) && Live(l) && k.agent == l.agent }

  ghost predicate HasCall(db: Db, a: nat) {
    exists c :: c in db.calls && Live(db.calls[c]) && db.calls[c].agent == a
  }

  lemma BoundTablesCorrespond(db: Db, serving: map<nat, nat>)
    requires Bound(db.calls, db.agents, serving)
    ensures Corresponds(db)
  {
    forall c, d | c in db.calls && d in db.calls && SameLiveAgent(db.calls[c], db.calls[d]) ensures c == d {
      assert serving[db.calls[c].agent] == c && serving[db.calls[d].agent] == d;
    }
    forall a | a in db.agents && Busy(db.agents[a]) ensures HasCall(db, a) {
      assert a in serving && serving[a] in db.calls;
    }
    forall a | a in db.agents && db.agents[a].call.Some? ensures db.agents[a].state.Dialing? {
      assert AgentRowOk(db.agents[a]);
    }
  }

  lemma Correspondence(w: World)
    requires Inv(w)
    ensures Corresponds(w.db)
  {
    hide CallsOk, Bound, Numbered, Inflight, Recorded, Accounted, KeysOk, RefsUnique, Corresponds;
    BoundTablesCorrespond(w.db, w.serving);
  }

  lemma AgentsAndCallsCorrespond(w: World)
    requires Reachable(w)
    ensures Corresponds(w.db)
  {
    hide Inv, Reachable, Corresponds;
    ReachableHasInv(w);
    Correspondence(w);
  }

  // ---- conservation

  const LIVE: set<CallState> := {CallState.Queued, CallState.Reserved, CallState.Initiated, CallState.Ringing,
                                 CallState.Answered, CallState.Connected}
  const BUSY: set<AgentState> := {AgentState.Reserved, AgentState.Dialing, AgentState.Connected}
  const STAFFED: set<AgentState> := BUSY + {AgentState.Available, AgentState.WrapUp}

  /** Which agents are serving calls in the given states. */
  predicate Pairing(agentStates: set<AgentState>, callStates: set<CallState>) {
    || (agentStates == {AgentState.Reserved} && callStates == {CallState.Reserved})
    || (agentStates == {AgentState.Dialing} && callStates == UNANSWERED)
    || (agentStates == {AgentState.Connected} && callStates == {CallState.Connected})
    || (agentStates == BUSY && callStates == LIVE)
  }

  lemma PairingBusy(s: AgentState, agentStates: set<AgentState>, callStates: set<CallState>)
    requires Pairing(agentStates, callStates) && s in agentStates
    ensures s.Reserved? || s.Dialing? || s.Connected?
  {
  }

  lemma PairingLive(s: CallState, agentStates: set<AgentState>, callStates: set<CallState>)
    requires Pairing(agentStates, callStates) && s in callStates
    ensures !Terminal(s)
  {
  }

  lemma PairedByLink(c: nat, call: Call, a: Agent, agentStates: set<AgentState>, callStates: set<CallState>)
    requires Pairing(agentStates, callStates) && Linked(c, call, a)
    ensures a.state in agentStates <==> call.state in callStates
  {
  }

  lemma LiveCallSharesCampaign(db: Db, c: nat)
    requires CallsOk(db.calls, db.agents, db.borrowers) && c in db.calls
    ensures db.calls[c].agent in db.agents && db.agents[db.calls[c].agent].campaign == db.calls[c].campaign
  {
    hide CallRowOk;
    assert Placeable(db.calls[c], db.agents, db.borrowers);
  }

  lemma PairedCounts(db: Db, serving: map<nat, nat>, campaign: nat,
                     agentStates: set<AgentState>, callStates: set<CallState>)
    requires Bound(db.calls, db.agents, serving) && CallsOk(db.calls, db.agents, db.borrowers)
    requires Pairing(agentStates, callStates)
    ensures |AgentsIn(db.agents, campaign, agentStates)| == |CallsIn(db.calls, campaign, callStates)|
  {
    var agents, calls := AgentsIn(db.agents, campaign, agentStates), CallsIn(db.calls, campaign, callStates);
    var back := map c | c in db.calls :: db.calls[c].agent;
    hide Pairing, Linked, CallRowOk;
    forall a | a in agents ensures a in serving && serving[a] in calls && back[serving[a]] == a {
      hide Placeable, CallsOk;
      PairingBusy(db.agents[a].state, agentStates, callStates);
      var c := serving[a];
      assert Busy(db.agents[a]) && Linked(c, db.calls[c], db.agents[a]);
      PairedByLink(c, db.calls[c], db.agents[a], agentStates, callStates);
      LiveCallSharesCampaign(db, c);
    }
    forall c | c in calls ensures back[c] in agents && back[c] in serving && serving[back[c]] == c {
      hide Placeable, CallsOk;
      PairingLive(db.calls[c].state, agentStates, callStates);
      LiveCallSharesCampaign(db, c);
      PairedByLink(c, db.calls[c], db.agents[back[c]], agentStates, callStates);
    }
    hide Bound, CallsOk;
    Sizes.SameSize(agents, calls, serving, back);
  }

  /** calls_ringing = agents_dialing, calls_connected = agents_connected, and nobody is ever dialled
      without a logged-in agent of the same campaign committed to the call. */
  lemma Conservation(w: World, campaign: nat)
    requires Reachable(w)
    ensures |CallsIn(w.db.calls, campaign, UNANSWERED)| == |AgentsIn(w.db.agents, campaign, {AgentState.Dialing})|
    ensures |CallsIn(w.db.calls, campaign, {CallState.Connected})|
            == |AgentsIn(w.db.agents, campaign, {AgentState.Connected})|
    ensures |CallsIn(w.db.calls, campaign, LIVE)| == |AgentsIn(w.db.agents, campaign, BUSY)|
    ensures |CallsIn(w.db.calls, campaign, LIVE)| <= |AgentsIn(w.db.agents, campaign, STAFFED)|
  {
    ReachableHasInv(w);
    hide CallsOk, Bound, Numbered, Inflight, Recorded, Accounted, KeysOk, RefsUnique, Reachable, AgentsIn, CallsIn;
    PairedCounts(w.db, w.serving, campaign, {AgentState.Dialing}, UNANSWERED);
    PairedCounts(w.db, w.serving, campaign, {AgentState.Connected}, {CallState.Connected});
    PairedCounts(w.db, w.serving, campaign, BUSY, LIVE);
    StaffedIncludesBusy(w.db, campaign);
  }

  lemma StaffedIncludesBusy(db: Db, campaign: nat)
    ensures |AgentsIn(db.agents, campaign, BUSY)| <= |AgentsIn(db.agents, campaign, STAFFED)|
  {
    Sizes.SubsetSize(AgentsIn(db.agents, campaign, BUSY), AgentsIn(db.agents, campaign, STAFFED));
  }

  // ---- borrowers

  ghost function CallsOf(db: Db, b: nat, live: bool): set<nat> {
    set c | c in db.calls && db.calls[c].borrower == b && Live(db.calls[c]) == live
  }

  /** attempt_count is the number of b's finished calls, which carry the attempts 1..attempt_count
      once each; at most one call is live, and it carries the next attempt. */
  ghost predicate AttemptsCounted(db: Db, b: nat)
    requires b in db.borrowers
  {
    var n := db.borrowers[b].attempts;
    && |CallsOf(db, b, false)| == n
    && (forall i :: 1 <= i <= n ==> HasAttempt(db, b, i))
    && (forall c :: c in CallsOf(db, b, false) ==> 1 <= db.calls[c].attempt <= n)
    && (forall c :: c in CallsOf(db, b, true) ==> db.calls[c].attempt == n + 1)
    && |CallsOf(db, b, true)| <= 1
  }

  ghost predicate HasAttempt(db: Db, b: nat, i: nat) {
    exists c :: c in CallsOf(db, b, false) && db.calls[c].attempt == i
  }

  lemma FinishedCallsAreThePrefix(db: Db, dialled: map<nat, seq<nat>>, b: nat)
    requires Numbered(db.calls, db.borrowers, dialled) && b in db.borrowers
    ensures db.borrowers[b].attempts <= |dialled[b]| <= db.borrowers[b].attempts + 1
    ensures BorrowerRowOk(db.borrowers[b], |dialled[b]| > db.borrowers[b].attempts)
    ensures CallsOf(db, b, false) == set i | 0 <= i < db.borrowers[b].attempts :: dialled[b][i]
    ensures CallsOf(db, b, true) == set i | db.borrowers[b].attempts <= i < |dialled[b]| :: dialled[b][i]
    ensures forall i, j :: 0 <= i < j < |dialled[b]| ==> dialled[b][i] != dialled[b][j]
    ensures forall i :: 0 <= i < |dialled[b]| ==>
      dialled[b][i] in db.calls && db.calls[dialled[b][i]].attempt == i + 1
  {
    var line := dialled[b];
    assert NumberedOne(db.calls, b, db.borrowers[b], line);
    forall c | c in db.calls && db.calls[c].borrower == b
      ensures 1 <= db.calls[c].attempt <= |line| && line[db.calls[c].attempt - 1] == c
    {
      assert InLine(c, db.calls[c], dialled);
    }
    forall i, j | 0 <= i < j < |line| ensures line[i] != line[j] {
      assert db.calls[line[i]].attempt == i + 1 && db.calls[line[j]].attempt == j + 1;
    }
  }

  lemma AttemptsAreCounted(db: Db, dialled: map<nat, seq<nat>>, b: nat)
    requires Numbered(db.calls, db.borrowers, dialled) && b in db.borrowers
    ensures AttemptsCounted(db, b)
  {
    FinishedCallsAreThePrefix(db, dialled, b);
    var line, n := dialled[b], db.borrowers[b].attempts;
    hide Numbered;
    Sizes.PrefixSize(line, n);
    forall i | 1 <= i <= n ensures HasAttempt(db, b, i) {
      assert line[i - 1] in CallsOf(db, b, false);
    }
    Sizes.AtMostOne(CallsOf(db, b, true));
  }

  lemma AllAttemptsCounted(w: World)
    requires Inv(w)
    ensures forall b :: b in w.db.borrowers ==> AttemptsCounted(w.db, b)
  {
    hide CallsOk, Bound, Numbered, Inflight, Recorded, Accounted, KeysOk, RefsUnique, AttemptsCounted;
    forall b | b in w.db.borrowers ensures AttemptsCounted(w.db, b) {
      AttemptsAreCounted(w.db, w.dialled, b);
    }
  }

  /** Attempt counting survives lock reclaims, re-claims, crashes and races. */
  lemma EveryAttemptIsCounted(w: World, b: nat)
    requires Reachable(w) && b in w.db.borrowers
    ensures AttemptsCounted(w.db, b)
  {
    ReachableHasInv(w);
    hide Inv, Reachable, AttemptsCounted;
    AllAttemptsCounted(w);
  }

  /** Nobody is called more often than allowed, and a dialable borrower has an attempt left. */
  lemma NeverDialledTooOften(w: World, b: nat)
    requires Reachable(w) && b in w.db.borrowers
    ensures |CallsOf(w.db, b, false) + CallsOf(w.db, b, true)| <= w.db.borrowers[b].maxAttempts
    ensures var s := w.db.borrowers[b].state;
      s.Pending? || s.Locked? ==> w.db.borrowers[b].attempts < w.db.borrowers[b].maxAttempts
    ensures CallsOf(w.db, b, true) != {} ==> w.db.borrowers[b].state.Pending? || w.db.borrowers[b].state.Locked?
  {
    ReachableHasInv(w);
    hide CallsOk, Bound, Numbered, Inflight, Recorded, Accounted, KeysOk, RefsUnique, Reachable;
    AttemptsAreCounted(w.db, w.dialled, b);
    FinishedCallsAreThePrefix(w.db, w.dialled, b);
    assert CallsOf(w.db, b, false) !! CallsOf(w.db, b, true);
  }

  // ---- call states

  /** No committed call is QUEUED or ANSWERED, the denormalised rank is the rank of the state, the
      committed writes are a path through the table, and a CONNECTED entry always follows the
      ANSWERED entry of the bridge: the bridge's ABANDONED branch has never been taken. */
  lemma HistoriesAreLegal(w: World, c: nat)
    requires Reachable(w) && c in w.db.calls
    ensures w.db.calls[c].rank == Rank(w.db.calls[c].state)
    ensures !w.db.calls[c].state.Answered? && !w.db.calls[c].state.Queued?
    ensures c in w.history && LegalHistory(w.history[c])
    ensures w.history[c][|w.history[c]| - 1].state == w.db.calls[c].state
    ensures forall i :: 0 <= i < |w.history[c]| - 1 && w.history[c][i + 1].state.Connected? ==>
      w.history[c][i].state.Answered?
  {
    hide Inv, Reachable;
    ReachableHasInv(w);
    CallHistory(w, c);
    CallIsCommitted(w, c);
  }

  lemma SameRankSameEntry(h: seq<Entry>, i: nat, j: nat)
    requires LegalHistory(h) && i < |h| && j < |h| && Rank(h[i].state) == Rank(h[j].state)
    ensures i == j
  {
    var p := seq(|h|, k requires 0 <= k < |h| => h[k].state);
    if i < j {
      LegalPathClimbs(p, i, j);
    } else if j < i {
      LegalPathClimbs(p, j, i);
    }
  }

  ghost function CleanEvents(db: Db, c: nat): set<nat> {
    set e | e in db.events && CleanlyApplied(db.events[e]) && db.events[e].call == Some(c)
  }

  ghost function IssuersAt(db: Db, c: nat, h: seq<Entry>, rank: nat): set<nat> {
    set e | e in CleanEvents(db, c) && exists i :: Issued(e, h, i) && Rank(h[i].state) == rank
  }

  lemma OneIssuerPerRank(db: Db, c: nat, h: seq<Entry>, rank: nat)
    requires LegalHistory(h)
    ensures |IssuersAt(db, c, h, rank)| <= 1
  {
    var s := IssuersAt(db, c, h, rank);
    forall e, f | e in s && f in s ensures e == f {
      var i :| Issued(e, h, i) && Rank(h[i].state) == rank;
      var j :| Issued(f, h, j) && Rank(h[j].state) == rank;
      SameRankSameEntry(h, i, j);
    }
    Sizes.AtMostOne(s);
  }

  /** However many duplicates arrive and however many appliers race, at most three ledger events per
      call are ever applied without an anomaly. */
  lemma AtMostThreeCleanEvents(w: World, c: nat)
    requires Reachable(w) && c in w.db.calls
    ensures |CleanEvents(w.db, c)| <= 3
  {
    hide Inv, Reachable;
    ReachableHasInv(w);
    CallHistory(w, c);
    forall e | e in CleanEvents(w.db, c) ensures exists i :: Issued(e, w.history[c], i) {
      CleanEventIsIssued(w, e);
    }
    ThreeIssuers(w.db, c, w.history[c]);
  }

  lemma ThreeIssuers(db: Db, c: nat, h: seq<Entry>)
    requires LegalHistory(h) && forall e :: e in CleanEvents(db, c) ==> exists i :: Issued(e, h, i)
    ensures |CleanEvents(db, c)| <= 3
  {
    var s3, s4, s6 := IssuersAt(db, c, h, 3), IssuersAt(db, c, h, 4), IssuersAt(db, c, h, 6);
    forall e | e in CleanEvents(db, c) ensures e in s3 || e in s4 || e in s6 {
      IssuerHasARank(db, c, h, e);
    }
    OneIssuerPerRank(db, c, h, 3);
    OneIssuerPerRank(db, c, h, 4);
    OneIssuerPerRank(db, c, h, 6);
    hide LegalHistory, IssuersAt, CleanEvents;
    Sizes.CoveredByThree(CleanEvents(db, c), s3, s4, s6);
  }

  lemma IssuerHasARank(db: Db, c: nat, h: seq<Entry>, e: nat)
    requires e in CleanEvents(db, c) && exists i :: Issued(e, h, i)
    ensures e in IssuersAt(db, c, h, 3) || e in IssuersAt(db, c, h, 4) || e in IssuersAt(db, c, h, 6)
  {
    var i :| Issued(e, h, i);
    assert Rank(h[i].state) == 3 || Rank(h[i].state) == 4 || Rank(h[i].state) == 6;
  }

  lemma CleanEventIsIssued(w: World, e: nat)
    requires Inv(w) && e in w.db.events && CleanlyApplied(w.db.events[e])
    ensures w.db.events[e].call.Some? && w.db.events[e].call.value in w.history
    ensures exists i :: Issued(e, w.history[w.db.events[e].call.value], i)
  {
    assert AccountedOne(e, w.db.events[e], w.history);
  }

  /** A delivery, without the step wrapper: event e names call c, and `seen` is an old committed read. */
  ghost predicate Deliverable(w: World, e: nat, c: nat, seen: CallState) {
    && e in w.db.events && !w.db.events[e].applied && c in w.history && c in w.db.calls
    && Refers(w.db.events[e], w.db.calls[c]) && WasCommitted(w.history[c], seen) && ForeignKeys(w.db)
  }

  lemma VerdictsAgree(db: Db, e: nat, c: nat, s1: CallState, s2: CallState, incoming: CallState,
                      now: Time, wrapup: Time, wall: Time)
    requires e in db.events && c in db.calls && ForeignKeys(db)
    requires CanApply(s1, incoming).Apply? && db.calls[c].rank < Rank(incoming)
             <==> CanApply(s2, incoming).Apply? && db.calls[c].rank < Rank(incoming)
    ensures var (d1, d2) := (TxApply(db, e, c, s1, incoming, now, wrapup, wall),
                             TxApply(db, e, c, s2, incoming, now, wrapup, wall));
      && d1.agents == d2.agents && d1.borrowers == d2.borrowers && d1.calls == d2.calls
      && e in d1.events && e in d2.events
      && (CleanlyApplied(d1.events[e]) <==> CleanlyApplied(d2.events[e]))
  {
  }

  /** The unlocked read never matters: whatever older committed state an applier saw, the agents,
      borrowers and calls come out as if it had read the row under its lock. */
  lemma StaleReadIsHarmless(w: World, e: nat, c: nat, seen: CallState, incoming: CallState, wrapup: Time, wall: Time)
    requires Reachable(w) && Deliverable(w, e, c, seen)
    ensures var stale := TxApply(w.db, e, c, seen, incoming, w.now, wrapup, wall);
      var locked := TxApply(w.db, e, c, w.db.calls[c].state, incoming, w.now, wrapup, wall);
      && stale.agents == locked.agents && stale.borrowers == locked.borrowers && stale.calls == locked.calls
      && e in stale.events && e in locked.events
      && (CleanlyApplied(stale.events[e]) <==> CleanlyApplied(locked.events[e]))
  {
    hide Inv, Reachable, ForeignKeys, TxApply;
    ReachableHasInv(w);
    DeliverMovesIffLegal(w, c, seen, incoming);
    CanApplyIsTheTable(w.db.calls[c].state, incoming);
    CallIsCommitted(w, c);
    hide CanApply, LegalNext;
    VerdictsAgree(w.db, e, c, seen, w.db.calls[c].state, incoming, w.now, wrapup, wall);
  }

  /** An ANSWERED event that moves its call connects it, and nobody is left talking to a dead line. */
  lemma BridgeAlwaysSucceeds(w: World, e: nat, c: nat, seen: CallState, wrapup: Time, wall: Time)
    requires Reachable(w) && Deliverable(w, e, c, seen)
    ensures var after := TxApply(w.db, e, c, seen, CallState.Answered, w.now, wrapup, wall);
      if Unanswered(w.db.calls[c])
      then c in after.calls && after.calls[c].state.Connected?
           && after.calls[c].agent in after.agents && after.agents[after.calls[c].agent].state.Connected?
      else after.calls == w.db.calls && after.agents == w.db.agents
  {
    hide Inv, Reachable, ForeignKeys, WasCommitted, CanApply, TxApply;
    ReachableHasInv(w);
    DeliverMovesIffLegal(w, c, seen, CallState.Answered);
    CallIsCommitted(w, c);
    if Unanswered(w.db.calls[c]) {
      LiveCallIsAnchored(w, c);
      assert Bridgeable(w.db, c);
      AppliedIsTransition(w.db, e, c, seen, CallState.Answered, w.now, wrapup, wall);
    } else {
      SkippedIsMark(w.db, e, c, seen, CallState.Answered, w.now, wrapup, wall);
    }
  }
}
