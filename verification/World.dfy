/** The dialing protocol as a transition system: the shared tables, the clock, the allocations whose
    worker is between transaction 1 and transaction 3, and three records that only the proofs read. */
module World {
  import opened Domain
  import opened Rows
  import opened Transactions
  import Keys

  /** A placement in progress. `lease` is the reserve lease its worker computed at the start. */
  datatype Allocation = Allocation(agent: nat, borrower: nat, lease: Time)

  datatype Cause = ByWorker | ByEvent(event: nat) | ByPullback | ByReaper

  /** One write of calls.state, and who issued it. */
  datatype Entry = Entry(state: CallState, cause: Cause)

  /**
   * history: every value calls.state ever had, per call.
   * serving: the live call of each busy agent.
   * dialled: the calls of each borrower in attempt order.
   */
  datatype World = World(
    now: Time, db: Db, inflight: map<nat, Allocation>,
    history: map<nat, seq<Entry>>, serving: map<nat, nat>, dialled: map<nat, seq<nat>>)

  const EMPTY: World := World(0.0, Db(map[], map[], map[], map[]), map[], map[], map[], map[])

  predicate Live(call: Call) { !Terminal(call.state) }

  predicate Busy(a: Agent) { a.state.Reserved? || a.state.Dialing? || a.state.Connected? }

  // ---- the invariant

  /** How a live call and its agent row correspond. */
  predicate Linked(c: nat, call: Call, a: Agent) {
    match call.state
    case Reserved => a.state.Reserved? && a.call.None? && a.lease == call.lease
    case Initiated => a.state.Dialing? && a.call == Some(c) && a.lease == call.lease
    case Ringing => a.state.Dialing? && a.call == Some(c)
    case Connected => a.state.Connected?
    case _ => false
  }

  predicate AgentRowOk(a: Agent) {
    && (a.call.Some? ==> a.state.Dialing?)
    && (a.lease.Some? ==> a.state.Reserved? || a.state.Dialing? || a.state.WrapUp?)
  }

  predicate CallRowOk(call: Call) {
    && call.rank == Rank(call.state) && !call.state.Queued? && !call.state.Answered?
    && (call.lease.Some? <== call.state.Reserved? || call.state.Initiated?)
    && (call.lease.None? <== call.state.Ringing? || call.state.Connected?)
    && (call.pcid.None? <== call.state.Reserved?)
    && (call.pcid.Some? <== 2 <= call.rank < 6)
    && (call.terminalAt.Some? <==> Terminal(call.state))
    && (call.initiatedAt.Some? ==> call.rank >= 2) && (call.ringingAt.Some? ==> call.rank >= 3)
    && (call.answeredAt.Some? ==> call.rank >= 5) && (call.connectedAt.Some? ==> call.rank >= 5)
    && (call.failure.Some? ==> call.rank == 6)
  }

  predicate BorrowerRowOk(b: Borrower, hasLive: bool) {
    && 1 <= b.maxAttempts && b.attempts <= b.maxAttempts && !b.state.InCall?
    && (b.state.Pending? || b.state.Locked? ==> b.attempts < b.maxAttempts)
    && (hasLive ==> b.state.Pending? || b.state.Locked?)
  }

  predicate Placeable(call: Call, agents: map<nat, Agent>, borrowers: map<nat, Borrower>) {
    && call.agent in agents && agents[call.agent].campaign == call.campaign
    && call.borrower in borrowers && borrowers[call.borrower].campaign == call.campaign
  }

  ghost predicate CallsOk(calls: map<nat, Call>, agents: map<nat, Agent>, borrowers: map<nat, Borrower>) {
    forall c :: c in calls ==> CallRowOk(calls[c]) && Placeable(calls[c], agents, borrowers)
  }

  ghost predicate Bound(calls: map<nat, Call>, agents: map<nat, Agent>, serving: map<nat, nat>) {
    && (forall c :: c in calls && Live(calls[c]) ==>
      && calls[c].agent in serving && serving[calls[c].agent] == c
      && calls[c].agent in agents && Linked(c, calls[c], agents[calls[c].agent]))
    && (forall a :: a in serving ==>
      serving[a] in calls && Live(calls[serving[a]]) && calls[serving[a]].agent == a)
    && (forall a :: a in agents ==> AgentRowOk(agents[a]) && (Busy(agents[a]) <==> a in serving))
  }

  /** Borrower b's calls are numbered 1.. in attempt order, and only the last can be live. */
  ghost predicate NumberedOne(calls: map<nat, Call>, b: nat, row: Borrower, line: seq<nat>) {
    && row.attempts <= |line| <= row.attempts + 1
    && BorrowerRowOk(row, |line| > row.attempts)
    && forall i :: 0 <= i < |line| ==>
      && line[i] in calls && calls[line[i]].borrower == b && calls[line[i]].attempt == i + 1
      && (Live(calls[line[i]]) <==> i == row.attempts)
  }

  predicate InLine(c: nat, call: Call, dialled: map<nat, seq<nat>>) {
    && call.borrower in dialled && 1 <= call.attempt <= |dialled[call.borrower]|
    && dialled[call.borrower][call.attempt - 1] == c
  }

  predicate AllInLine(calls: map<nat, Call>, dialled: map<nat, seq<nat>>) {
    forall c :: c in calls ==> InLine(c, calls[c], dialled)
  }

  ghost predicate Numbered(calls: map<nat, Call>, borrowers: map<nat, Borrower>, dialled: map<nat, seq<nat>>) {
    && dialled.Keys == borrowers.Keys
    && (forall b :: b in dialled ==> NumberedOne(calls, b, borrowers[b], dialled[b]))
    && AllInLine(calls, dialled)
  }

  predicate InflightOne(now: Time, call: Call, k: Allocation) {
    && call.agent == k.agent && call.borrower == k.borrower
    && (call.state.Reserved? || Terminal(call.state))
    && (now <= k.lease ==> call.state.Reserved? && call.lease == Some(k.lease))
  }

  ghost predicate Inflight(now: Time, calls: map<nat, Call>, inflight: map<nat, Allocation>) {
    forall c :: c in inflight ==> c in calls && InflightOne(now, calls[c], inflight[c])
  }

  ghost predicate LegalHistory(h: seq<Entry>) {
    && h != [] && h[0].state.Reserved?
    && (forall i :: 0 <= i < |h| - 1 ==> h[i + 1].state in LegalNext(h[i].state))
    && (forall i :: 0 <= i < |h| && h[i].state.Answered? ==> i + 1 < |h| && h[i + 1].state.Connected?)
  }

  ghost predicate Recorded(calls: map<nat, Call>, history: map<nat, seq<Entry>>) {
    && history.Keys == calls.Keys
    && (forall c :: c in history ==>
      LegalHistory(history[c]) && history[c][|history[c]| - 1].state == calls[c].state)
  }

  predicate CleanlyApplied(ev: Event) { ev.applied && ev.anomaly.None? }

  /** Event e issued entry i of h: it rang, it was answered, or it ended the call. */
  predicate Issued(e: nat, h: seq<Entry>, i: int) {
    && 0 <= i < |h| && h[i].cause == ByEvent(e)
    && (h[i].state.Ringing? || h[i].state.Answered? || Terminal(h[i].state))
  }

  ghost predicate AccountedOne(e: nat, ev: Event, history: map<nat, seq<Entry>>) {
    && (!ev.applied ==> ev.call.None?)
    && (CleanlyApplied(ev) ==>
      ev.call.Some? && ev.call.value in history && exists i :: Issued(e, history[ev.call.value], i))
  }

  ghost predicate Accounted(events: map<nat, Event>, history: map<nat, seq<Entry>>) {
    forall e :: e in events ==> AccountedOne(e, events[e], history)
  }

  ghost predicate KeysOk(calls: map<nat, Call>) {
    forall c :: c in calls ==> calls[c].key == Keys.KeyOf(calls[c].campaign, calls[c].borrower, calls[c].attempt)
  }

  predicate SameRef(k: Call, l: Call) {
    k.pcid.Some? && k.pcid == l.pcid && k.provider == l.provider
  }

  ghost predicate RefsUnique(calls: map<nat, Call>) {
    forall c, d :: c in calls && d in calls && c != d ==> !SameRef(calls[c], calls[d])
  }

  ghost predicate Inv(w: World) {
    && CallsOk(w.db.calls, w.db.agents, w.db.borrowers) && Bound(w.db.calls, w.db.agents, w.serving)
    && Numbered(w.db.calls, w.db.borrowers, w.dialled) && Inflight(w.now, w.db.calls, w.inflight)
    && Recorded(w.db.calls, w.history) && Accounted(w.db.events, w.history)
    && KeysOk(w.db.calls) && RefsUnique(w.db.calls)
  }

  // ---- the one shape every transition of a live call has

  function Entries(states: seq<CallState>, cause: Cause): (h: seq<Entry>)
    ensures |h| == |states| && forall i :: 0 <= i < |h| ==> h[i] == Entry(states[i], cause)
  {
    seq(|states|, i requires 0 <= i < |states| => Entry(states[i], cause))
  }

  function Unserve(serving: map<nat, nat>, call: Call): map<nat, nat> {
    if Terminal(call.state) then serving - {call.agent} else serving
  }

  /** Call c moves through `states`, its agent and borrower rows with it. */
  function Move(w: World, c: nat, call: Call, a: Agent, b: Borrower, states: seq<CallState>, cause: Cause): World
    requires c in w.history
  {
    w.(db := w.db.(calls := w.db.calls[c := call], agents := w.db.agents[call.agent := a],
                   borrowers := w.db.borrowers[call.borrower := b]),
       history := w.history[c := w.history[c] + Entries(states, cause)],
       serving := Unserve(w.serving, call))
  }

  predicate SameIdentity(k: Call, l: Call) {
    && k.campaign == l.campaign && k.agent == l.agent && k.borrower == l.borrower
    && k.provider == l.provider && k.attempt == l.attempt && k.key == l.key
  }

  /** One write of calls.state, or the two of a successful bridge. */
  predicate Hops(start: CallState, states: seq<CallState>, end: CallState) {
    && (states == [end] || (states == [CallState.Answered, CallState.Connected] && end.Connected?))
    && states[0] in LegalNext(start) && !end.Answered?
  }

  predicate AgentFollows(c: nat, call: Call, a: Agent) {
    AgentRowOk(a) && (if Live(call) then Busy(a) && Linked(c, call, a) else !Busy(a))
  }

  predicate BorrowerFollows(call: Call, before: Borrower, after: Borrower) {
    if Live(call) then after == before else after.attempts == before.attempts + 1 && BorrowerRowOk(after, false)
  }

  /** What a transition has to get right about the three rows it touches. */
  predicate RowsFollow(c: nat, k: Call, a0: Agent, b0: Borrower, call: Call, a: Agent, b: Borrower,
                       states: seq<CallState>)
  {
    && CallRowOk(call) && SameIdentity(k, call) && Hops(k.state, states, call.state)
    && a.campaign == a0.campaign && AgentFollows(c, call, a)
    && b.campaign == b0.campaign && BorrowerFollows(call, b0, b)
  }

  ghost predicate RefOk(db: Db, c: nat, call: Call)
    requires c in db.calls
  {
    call.pcid == db.calls[c].pcid || (call.pcid.Some? && !RefTaken(db, c, call.provider, call.pcid.value))
  }

  lemma MoveKeepsCalls(calls: map<nat, Call>, agents: map<nat, Agent>, borrowers: map<nat, Borrower>,
                       c: nat, call: Call, a: Agent, b: Borrower)
    requires CallsOk(calls, agents, borrowers) && c in calls && CallRowOk(call) && SameIdentity(calls[c], call)
    requires a.campaign == agents[call.agent].campaign && b.campaign == borrowers[call.borrower].campaign
    ensures CallsOk(calls[c := call], agents[call.agent := a], borrowers[call.borrower := b])
  {
  }

  lemma MoveKeepsBound(calls: map<nat, Call>, agents: map<nat, Agent>, serving: map<nat, nat>,
                       c: nat, call: Call, a: Agent)
    requires Bound(calls, agents, serving)
    requires c in calls && Live(calls[c]) && calls[c].agent == call.agent && AgentFollows(c, call, a)
    ensures Bound(calls[c := call], agents[call.agent := a], Unserve(serving, call))
  {
    forall d | d in calls && d != c && Live(calls[d]) ensures calls[d].agent != call.agent {
      assert serving[calls[d].agent] == d && serving[call.agent] == c;
    }
    forall x | x in serving && x != call.agent ensures serving[x] != c {
    }
  }

  /** The moved call is the last in its borrower's line; ended, it is counted as an attempt. */
  lemma MoveKeepsOwnLine(calls: map<nat, Call>, c: nat, call: Call, before: Borrower, after: Borrower, line: seq<nat>)
    requires c in calls && Live(calls[c]) && SameIdentity(calls[c], call)
    requires NumberedOne(calls, call.borrower, before, line) && BorrowerFollows(call, before, after)
    requires 1 <= call.attempt <= |line| && line[call.attempt - 1] == c
    ensures NumberedOne(calls[c := call], call.borrower, after, line)
  {
    hide BorrowerRowOk;
    LiveCallIsLast(calls, c, before, line);
    var calls' := calls[c := call];
    forall i | 0 <= i < |line|
      ensures line[i] in calls' && calls'[line[i]].borrower == call.borrower && calls'[line[i]].attempt == i + 1
      ensures Live(calls'[line[i]]) <==> i == after.attempts
    {
      assert calls[line[i]].attempt == i + 1;
    }
    MovedBorrowerIsOk(call, before, after, |line| > before.attempts);
  }

  lemma LiveCallIsLast(calls: map<nat, Call>, c: nat, row: Borrower, line: seq<nat>)
    requires c in calls && Live(calls[c]) && NumberedOne(calls, calls[c].borrower, row, line)
    requires 1 <= calls[c].attempt <= |line| && line[calls[c].attempt - 1] == c
    ensures calls[c].attempt == |line| == row.attempts + 1
  {
    hide BorrowerRowOk;
  }

  lemma MovedBorrowerIsOk(call: Call, before: Borrower, after: Borrower, hasLive: bool)
    requires BorrowerFollows(call, before, after) && BorrowerRowOk(before, hasLive)
    ensures BorrowerRowOk(after, Live(call) && hasLive)
  {
  }

  /** Another borrower's line does not hold the moved call. */
  lemma MoveKeepsOtherLine(calls: map<nat, Call>, c: nat, call: Call, b: nat, row: Borrower, line: seq<nat>)
    requires c in calls && SameIdentity(calls[c], call) && b != call.borrower && NumberedOne(calls, b, row, line)
    ensures NumberedOne(calls[c := call], b, row, line)
  {
    hide BorrowerRowOk;
    forall i | 0 <= i < |line| ensures line[i] in calls && line[i] != c {
      assert calls[line[i]].borrower == b;
    }
  }

  lemma MoveKeepsInLine(calls: map<nat, Call>, dialled: map<nat, seq<nat>>, c: nat, call: Call)
    requires c in calls && SameIdentity(calls[c], call) && AllInLine(calls, dialled)
    ensures AllInLine(calls[c := call], dialled)
  {
    assert InLine(c, calls[c], dialled);
  }

  lemma MoveKeepsNumbered(calls: map<nat, Call>, borrowers: map<nat, Borrower>, dialled: map<nat, seq<nat>>,
                          c: nat, call: Call, b: Borrower)
    requires Numbered(calls, borrowers, dialled)
    requires c in calls && Live(calls[c]) && SameIdentity(calls[c], call)
    requires call.borrower in borrowers && BorrowerFollows(call, borrowers[call.borrower], b)
    ensures Numbered(calls[c := call], borrowers[call.borrower := b], dialled)
  {
    hide NumberedOne, BorrowerFollows;
    assert InLine(c, calls[c], dialled);
    MoveKeepsInLine(calls, dialled, c, call);
    var borrowers' := borrowers[call.borrower := b];
    forall x | x in dialled ensures NumberedOne(calls[c := call], x, borrowers'[x], dialled[x]) {
      if x == call.borrower {
        MoveKeepsOwnLine(calls, c, call, borrowers[x], b, dialled[x]);
      } else {
        MoveKeepsOtherLine(calls, c, call, x, borrowers[x], dialled[x]);
      }
    }
  }

  lemma MoveKeepsInflight(now: Time, calls: map<nat, Call>, inflight: map<nat, Allocation>, c: nat, call: Call)
    requires Inflight(now, calls, inflight) && c in calls && SameIdentity(calls[c], call)
    requires c in inflight ==> now > inflight[c].lease && Terminal(call.state)
    ensures Inflight(now, calls[c := call], inflight)
  {
  }

  lemma HopsExtendHistory(h: seq<Entry>, states: seq<CallState>, end: CallState, cause: Cause)
    requires LegalHistory(h) && Hops(h[|h| - 1].state, states, end)
    ensures LegalHistory(h + Entries(states, cause))
    ensures (h + Entries(states, cause))[|h| + |states| - 1].state == end
  {
    var g := h + Entries(states, cause);
    assert forall i :: 0 <= i < |h| ==> g[i] == h[i];
    assert g[|h|] == Entry(states[0], cause);
    if |states| == 2 {
      assert g[|h| + 1] == Entry(states[1], cause);
    }
  }

  lemma MoveKeepsRecorded(calls: map<nat, Call>, history: map<nat, seq<Entry>>,
                          c: nat, call: Call, states: seq<CallState>, cause: Cause)
    requires Recorded(calls, history) && c in calls && Hops(calls[c].state, states, call.state)
    ensures Recorded(calls[c := call], history[c := history[c] + Entries(states, cause)])
  {
    HopsExtendHistory(history[c], states, call.state, cause);
  }

  lemma GrowthKeepsAccounted(events: map<nat, Event>, history: map<nat, seq<Entry>>, c: nat, more: seq<Entry>)
    requires Accounted(events, history) && c in history
    ensures Accounted(events, history[c := history[c] + more])
  {
    var history' := history[c := history[c] + more];
    forall e | e in events ensures AccountedOne(e, events[e], history') {
      assert AccountedOne(e, events[e], history);
      if CleanlyApplied(events[e]) {
        var d := events[e].call.value;
        var i :| Issued(e, history[d], i);
        assert Issued(e, history'[d], i);
      }
    }
  }

  lemma MoveKeepsRefs(db: Db, c: nat, call: Call)
    requires RefsUnique(db.calls) && c in db.calls && SameIdentity(db.calls[c], call) && RefOk(db, c, call)
    ensures RefsUnique(db.calls[c := call])
  {
    forall d | d in db.calls && d != c ensures !SameRef(db.calls[d], call) && !SameRef(call, db.calls[d]) {
      assert !SameRef(db.calls[c], db.calls[d]);
    }
  }

  lemma MoveKeepsKeys(calls: map<nat, Call>, c: nat, call: Call)
    requires KeysOk(calls) && c in calls && SameIdentity(calls[c], call)
    ensures KeysOk(calls[c := call])
  {
  }

  lemma MoveKeepsInv(w: World, c: nat, call: Call, a: Agent, b: Borrower, states: seq<CallState>, cause: Cause)
    requires Inv(w) && c in w.db.calls && Live(w.db.calls[c])
    requires c in w.inflight ==> w.now > w.inflight[c].lease && Terminal(call.state)
    requires call.agent in w.db.agents && call.borrower in w.db.borrowers
    requires RowsFollow(c, w.db.calls[c], w.db.agents[call.agent], w.db.borrowers[call.borrower], call, a, b, states)
    requires RefOk(w.db, c, call)
    ensures Inv(Move(w, c, call, a, b, states, cause))
  {
    hide CallsOk, Bound, Numbered, Inflight, Accounted, KeysOk, RefsUnique;
    hide CallRowOk, AgentFollows, BorrowerFollows, RefOk;
    MoveKeepsCalls(w.db.calls, w.db.agents, w.db.borrowers, c, call, a, b);
    MoveKeepsBound(w.db.calls, w.db.agents, w.serving, c, call, a);
    MoveKeepsNumbered(w.db.calls, w.db.borrowers, w.dialled, c, call, b);
    MoveKeepsInflight(w.now, w.db.calls, w.inflight, c, call);
    MoveKeepsRecorded(w.db.calls, w.history, c, call, states, cause);
    GrowthKeepsAccounted(w.db.events, w.history, c, Entries(states, cause));
    MoveKeepsKeys(w.db.calls, c, call);
    MoveKeepsRefs(w.db, c, call);
  }
}
