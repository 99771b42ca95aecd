/** From the provider's wire to the finished call: what the mock provider sends, the ledger records
    once, the appliers apply in any order, and the call ends where its lifecycle did. */
module EndToEnd {
  import opened Domain
  import opened Rows
  import opened Transactions
  import opened World
  import opened Protocol
  import Preservation
  import Recovery
  import opened Runs
  import Laws
  import opened Lifecycle
  import EventNames
  import opened Deduplication
  import P = Provider

  // ---- what no step does to a call's identity

  predicate IdentityKept(k: Call, l: Call) { SameIdentity(k, l) && (k.pcid.Some? ==> l.pcid == k.pcid) }

  lemma AdvanceKeepsIdentity(k: Call, state: CallState, pcid: Option<string>, lease: Option<Time>,
                             failure: Option<string>, wall: Time)
    ensures var row := Advance(k, state, pcid, lease, failure, wall); row.Some? ==> IdentityKept(k, row.value)
  {
  }

  lemma TransitionKeepsIdentity(db: Db, c: nat, row: Call, incoming: CallState, now: Time, wrapup: Time, wall: Time)
    requires c in db.calls && ForeignKeys(db) && IdentityKept(db.calls[c], row)
    ensures row.agent in db.agents && row.borrower in db.borrowers
    ensures var after := Transition(db, c, row, incoming, now, wrapup, wall).calls;
      c in after && after == db.calls[c := after[c]] && IdentityKept(db.calls[c], after[c])
  {
    var moved := db.(calls := db.calls[c := row]);
    assert ForeignKeys(moved);
    AdvanceKeepsIdentity(row, CallState.Connected, None, None, None, wall);
    AdvanceKeepsIdentity(row, CallState.Abandoned, None, None, None, wall);
    hide Advance, AgentOnCallState, OnCallTerminal, ForceState;
  }

  lemma ApplyKeepsIdentity(db: Db, e: nat, d: nat, seen: CallState, incoming: CallState,
                           now: Time, wrapup: Time, wall: Time, c: nat)
    requires e in db.events && d in db.calls && c in db.calls && ForeignKeys(db)
    ensures var after := TxApply(db, e, d, seen, incoming, now, wrapup, wall);
      c in after.calls && IdentityKept(db.calls[c], after.calls[c])
  {
    hide CanApply, TxApply, Transition;
    if CanApply(seen, incoming).Apply? && db.calls[d].rank < Rank(incoming) {
      Preservation.AppliedIsTransition(db, e, d, seen, incoming, now, wrapup, wall);
      AdvanceKeepsIdentity(db.calls[d], incoming, db.events[e].pcid, None, None, wall);
      var row := Advance(db.calls[d], incoming, db.events[e].pcid, None, None, wall).value;
      TransitionKeepsIdentity(db, d, row, incoming, now, wrapup, wall);
    } else {
      Preservation.SkippedIsMark(db, e, d, seen, incoming, now, wrapup, wall);
    }
  }

  lemma ReapKeepsIdentity(db: Db, t: Time, orphans: seq<nat>, wall: Time, c: nat)
    requires ForeignKeys(db) && IsOrphanList(db, orphans, t) && c in db.calls
    ensures c in TxReap(db, orphans, t, wall).calls
    ensures IdentityKept(db.calls[c], TxReap(db, orphans, t, wall).calls[c])
  {
    hide FailAll;
    Recovery.FailAllCalls(db, orphans, wall);
    Recovery.ReapRows(db, orphans, t, wall);
  }

  lemma RejectKeepsIdentity(w: World, s: Step)
    requires Shaped(w) && Enabled(w, s) && s.Reject? && s.c in w.db.calls
    ensures s.c in Do(w, s).db.calls && IdentityKept(w.db.calls[s.c], Do(w, s).db.calls[s.c])
  {
    hide Shaped, Enabled, Reschedule, Release;
  }

  lemma InitiateKeepsIdentity(w: World, s: Step)
    requires Shaped(w) && Enabled(w, s) && s.Initiate? && s.c in w.db.calls
    ensures s.c in Do(w, s).db.calls && IdentityKept(w.db.calls[s.c], Do(w, s).db.calls[s.c])
  {
    hide Shaped, Enabled, RefTaken, ForceState;
  }

  lemma CancelKeepsIdentity(w: World, s: Step)
    requires Shaped(w) && Enabled(w, s) && s.Cancel? && s.c in w.db.calls
    ensures s.c in Do(w, s).db.calls && IdentityKept(w.db.calls[s.c], Do(w, s).db.calls[s.c])
  {
    hide Shaped, Enabled, OnCallTerminal, Release;
  }

  lemma WorkerKeepsIdentity(w: World, s: Step, c: nat)
    requires Shaped(w) && Enabled(w, s) && c in w.db.calls && (s.Reject? || s.Initiate? || s.Cancel?)
    ensures c in Do(w, s).db.calls && IdentityKept(w.db.calls[c], Do(w, s).db.calls[c])
  {
    hide Shaped, Enabled, Do, IdentityKept;
    if s.c == c {
      if s.Reject? {
        RejectKeepsIdentity(w, s);
      } else if s.Initiate? {
        InitiateKeepsIdentity(w, s);
      } else {
        CancelKeepsIdentity(w, s);
      }
    } else {
      Preservation.WorkerStepKeepsCall(w, s, c);
      SameCallKeepsIdentity(w.db.calls[c]);
    }
  }

  lemma DeliverKeepsIdentity(w: World, s: Step, c: nat)
    requires Shaped(w) && Enabled(w, s) && c in w.db.calls && s.Deliver?
    ensures c in Do(w, s).db.calls && IdentityKept(w.db.calls[c], Do(w, s).db.calls[c])
  {
    ApplyKeepsIdentity(w.db, s.e, s.c, s.seen, s.incoming, w.now, s.wrapup, s.wall, c);
    DoDeliver(w, s);
    hide Do, TxApply, IdentityKept;
  }

  lemma SweepKeepsIdentity(w: World, s: Step, c: nat)
    requires Shaped(w) && Enabled(w, s) && c in w.db.calls && s.Reap?
    ensures c in Do(w, s).db.calls && IdentityKept(w.db.calls[c], Do(w, s).db.calls[c])
  {
    ReapKeepsIdentity(w.db, s.t, s.orphans, s.wall, c);
    DoReap(w, s);
    hide Do, TxReap, IdentityKept;
  }

  lemma StepKeepsIdentity(w: World, s: Step, c: nat)
    requires Shaped(w) && Enabled(w, s) && c in w.db.calls
    ensures c in Do(w, s).db.calls && IdentityKept(w.db.calls[c], Do(w, s).db.calls[c])
  {
    hide Shaped, Enabled, Do, IdentityKept;
    match s
    case Reap(_, _, _) => SweepKeepsIdentity(w, s, c);
    case Deliver(_, _, _, _, _, _) => DeliverKeepsIdentity(w, s, c);
    case Reject(_, _) => WorkerKeepsIdentity(w, s, c);
    case Initiate(_, _, _, _) => WorkerKeepsIdentity(w, s, c);
    case Cancel(_, _) => WorkerKeepsIdentity(w, s, c);
    case _ =>
      UninvolvedStepKeepsCall(w, s, c);
      SameCallKeepsIdentity(w.db.calls[c]);
  }

  lemma SameCallKeepsIdentity(k: Call)
    ensures IdentityKept(k, k)
  {
  }

  lemma {:induction false} RunKeepsIdentity(w: World, steps: seq<Step>, c: nat)
    requires CanRun(w, steps) && c in w.db.calls
    ensures c in After(w, steps).db.calls && IdentityKept(w.db.calls[c], After(w, steps).db.calls[c])
    decreases |steps|
  {
    hide Shaped, Enabled, Do;
    if steps != [] {
      StepKeepsIdentity(w, steps[0], c);
      RunKeepsIdentity(Do(w, steps[0]), steps[1..], c);
    }
  }

  // ---- deliveries and their rows

  /** A delivery to a call applies a row that names the call. */
  lemma {:induction false} DeliveriesHaveRows(w: World, steps: seq<Step>, c: nat, i: nat)
    requires CanRun(w, steps) && c in w.db.calls && w.db.calls[c].pcid.Some?
    requires i < |steps| && DeliversTo(steps[i], c)
    ensures var events := After(w, steps).db.events;
      steps[i].e in events && Names(events[steps[i].e], w.db.calls[c].provider, w.db.calls[c].pcid.value)
    decreases |steps|
  {
    hide Shaped, Do, WasCommitted;
    if i == 0 {
      RunKeepsRows(w, steps);
    } else {
      hide Enabled;
      StepKeepsIdentity(w, steps[0], c);
      assert steps[1..][i - 1] == steps[i];
      DeliveriesHaveRows(Do(w, steps[0]), steps[1..], c, i - 1);
    }
  }

  lemma OnlyThisCallIsNamed(w: World, s: Step, c: nat)
    requires s.Deliver? && s.e in w.db.events && c in w.db.calls && w.db.calls[c].pcid.Some?
    requires Names(w.db.events[s.e], w.db.calls[c].provider, w.db.calls[c].pcid.value)
    requires Enabled(w, s) && RefsUnique(w.db.calls)
    ensures s.c == c
  {
    hide WasCommitted;
    assert SameRef(w.db.calls[s.c], w.db.calls[c]);
  }

  lemma ReferencesAreUnique(w: World)
    requires Inv(w)
    ensures RefsUnique(w.db.calls)
  {
    hide CallsOk, Bound, Numbered, Inflight, Recorded, Accounted, KeysOk, RefsUnique;
  }

  ghost predicate Delivered(steps: seq<Step>, c: nat, e: nat) {
    exists i :: 0 <= i < |steps| && DeliversTo(steps[i], c) && steps[i].e == e
  }

  /** A row that names the call and was settled during the run was delivered to that call. */
  lemma {:induction false} SettledRowsWereDelivered(w: World, steps: seq<Step>, c: nat, e: nat)
    requires Inv(w) && CanRun(w, steps) && c in w.db.calls && w.db.calls[c].pcid.Some?
    requires e in After(w, steps).db.events && Processed(After(w, steps).db.events[e])
    requires Names(After(w, steps).db.events[e], w.db.calls[c].provider, w.db.calls[c].pcid.value)
    requires e in w.db.events ==> !w.db.events[e].applied
    ensures Delivered(steps, c, e)
    decreases |steps|
  {
    hide Inv, Shaped, Do, Enabled, RefsUnique;
    if steps != [] {
      var s, rest, u := steps[0], steps[1..], Do(w, steps[0]);
      StepKeepsInv(w, s);
      StepKeepsRows(w, s);
      StepKeepsIdentity(w, s, c);
      RunKeepsRows(u, rest);
      if e in u.db.events && u.db.events[e].applied {
        DeliveredRowIsThere(w, s, e);
        ReferencesAreUnique(w);
        OnlyThisCallIsNamed(w, s, c);
        assert DeliversTo(steps[0], c);
      } else {
        SettledRowsWereDelivered(u, rest, c, e);
        var i :| 0 <= i < |rest| && DeliversTo(rest[i], c) && rest[i].e == e;
        assert steps[i + 1] == rest[i];
      }
    }
  }

  lemma DeliveredRowIsThere(w: World, s: Step, e: nat)
    requires Shaped(w) && Enabled(w, s) && s.Deliver? && s.e == e
    ensures e in w.db.events
  {
  }

  // ---- end to end

  ghost predicate Unread(events: map<nat, Event>, provider: string, pcid: string) {
    forall e :: e in events && Names(events[e], provider, pcid) ==> !events[e].applied
  }

  ghost predicate Drained(events: map<nat, Event>, provider: string, pcid: string) {
    forall e :: e in events && Names(events[e], provider, pcid) ==> Processed(events[e])
  }

  /** Whenever an event is delivered to c, the applier takes the incoming state from its row. */
  ghost predicate ReadsRows(w: World, steps: seq<Step>, c: nat)
    requires CanRun(w, steps)
    decreases |steps|
  {
    steps != [] ==>
      && (DeliversTo(steps[0], c) && steps[0].e in w.db.events ==>
        EventNames.Incoming(w.db.events[steps[0].e].etype) == Some(steps[0].incoming))
      && ReadsRows(Do(w, steps[0]), steps[1..], c)
  }

  /** The row is there when it is read, and does not change its type afterwards. */
  lemma {:induction false} DeliveredTypeIsRead(w: World, steps: seq<Step>, c: nat, i: nat)
    requires CanRun(w, steps) && ReadsRows(w, steps, c) && i < |steps| && DeliversTo(steps[i], c)
    ensures var events := After(w, steps).db.events;
      steps[i].e in events && EventNames.Incoming(events[steps[i].e].etype) == Some(steps[i].incoming)
    decreases |steps|
  {
    hide Shaped, Do, EventNames.Incoming;
    if i == 0 {
      DeliveredRowIsThere(w, steps[0], steps[0].e);
      RunKeepsRows(w, steps);
    } else {
      hide Enabled;
      assert steps[1..][i - 1] == steps[i];
      DeliveredTypeIsRead(Do(w, steps[0]), steps[1..], c, i - 1);
    }
  }

  function EndOf(answered: bool): CallState { if answered then CallState.Completed else CallState.Failed }

  lemma LifecycleNames(d: P.Delivery, pcid: string, answered: bool, x: P.Draws, y: P.Draws, z: P.Draws)
    requires d in P.Lifecycle(pcid, answered, x, y, z)
    ensures d.pcid == pcid && EventNames.Incoming(d.etype).Some?
    ensures var s := EventNames.Incoming(d.etype).value; s.Ringing? || s.Answered? || s == EndOf(answered)
  {
    EventNames.SentNames();
    hide EventNames.Incoming;
  }

  lemma LifecycleHasItsEnd(pcid: string, answered: bool, x: P.Draws, y: P.Draws, z: P.Draws)
    returns (d: P.Delivery)
    ensures d in P.Lifecycle(pcid, answered, x, y, z) && d.pcid == pcid
    ensures EventNames.Incoming(d.etype) == Some(EndOf(answered))
  {
    d := if answered then P.Delivery(pcid, z.eventId, "COMPLETED") else P.Delivery(pcid, y.eventId, "FAILED");
    EventNames.SentNames();
    hide EventNames.Incoming;
  }

  lemma WhatIsDelivered(w: World, steps: seq<Step>, c: nat, pcid: string, sent: seq<P.Delivery>,
                        answered: bool, x: P.Draws, y: P.Draws, z: P.Draws)
    requires CanRun(w, steps) && c in w.db.calls && w.db.calls[c].pcid == Some(pcid)
    requires P.Elements(sent) == P.Lifecycle(pcid, answered, x, y, z)
    requires Holds(After(w, steps).db.events, w.db.calls[c].provider, pcid, sent)
    requires ReadsRows(w, steps, c)
    ensures ReportsOnly(steps, c, EndOf(answered))
  {
    hide CanRun, After, P.Lifecycle, EventNames.Incoming, ReadsRows;
    forall i | 0 <= i < |steps| && DeliversTo(steps[i], c)
      ensures steps[i].incoming.Ringing? || steps[i].incoming.Answered? || steps[i].incoming == EndOf(answered)
    {
      DeliveriesHaveRows(w, steps, c, i);
      DeliveredTypeIsRead(w, steps, c, i);
      var ev := After(w, steps).db.events[steps[i].e];
      var j :| 0 <= j < |sent| && RowOf(ev, w.db.calls[c].provider, sent[j]);
      assert sent[j] in P.Elements(sent);
      LifecycleNames(sent[j], pcid, answered, x, y, z);
    }
  }

  lemma TheEndIsDelivered(w: World, steps: seq<Step>, c: nat, pcid: string, sent: seq<P.Delivery>,
                          answered: bool, x: P.Draws, y: P.Draws, z: P.Draws)
    requires Inv(w) && CanRun(w, steps) && c in w.db.calls && w.db.calls[c].pcid == Some(pcid)
    requires P.Elements(sent) == P.Lifecycle(pcid, answered, x, y, z)
    requires Holds(After(w, steps).db.events, w.db.calls[c].provider, pcid, sent)
    requires ReadsRows(w, steps, c)
    requires Unread(w.db.events, w.db.calls[c].provider, pcid)
    requires Drained(After(w, steps).db.events, w.db.calls[c].provider, pcid)
    ensures ReportsEnd(steps, c, EndOf(answered))
  {
    hide Inv, CanRun, After, P.Lifecycle, EventNames.Incoming, ReadsRows;
    var events := After(w, steps).db.events;
    var d := LifecycleHasItsEnd(pcid, answered, x, y, z);
    assert d in P.Elements(sent) && d in sent;
    var e :| e in events && RowOf(events[e], w.db.calls[c].provider, d);
    RunKeepsRows(w, steps);
    SettledRowsWereDelivered(w, steps, c, e);
    var i :| 0 <= i < |steps| && DeliversTo(steps[i], c) && steps[i].e == e;
    DeliveredTypeIsRead(w, steps, c, i);
    assert steps[i].incoming == EndOf(answered);
  }

  /** The provider gives the events of a call ids of their own. */
  predicate DistinctIds(answered: bool, x: P.Draws, y: P.Draws, z: P.Draws) {
    x.eventId != y.eventId && (answered ==> z.eventId != x.eventId && z.eventId != y.eventId)
  }

  lemma DistinctIdsNameCopies(sent: seq<P.Delivery>, pcid: string, answered: bool, x: P.Draws, y: P.Draws, z: P.Draws)
    requires P.Elements(sent) == P.Lifecycle(pcid, answered, x, y, z) && DistinctIds(answered, x, y, z)
    ensures CopiesOnly(sent)
  {
    forall i, j | 0 <= i < |sent| && 0 <= j < |sent| && sent[i].eventId == sent[j].eventId ensures sent[i] == sent[j] {
      assert sent[i] in P.Elements(sent) && sent[j] in P.Elements(sent);
    }
  }

  /** One entry of a legal history per rank: bridged at most once, ended at most once. */
  ghost predicate BridgedAndEndedOnce(h: seq<Entry>) {
    && (forall i, j :: 0 <= i < |h| && 0 <= j < |h| && h[i].state.Connected? && h[j].state.Connected? ==> i == j)
    && (forall i, j :: 0 <= i < |h| && 0 <= j < |h| && Terminal(h[i].state) && Terminal(h[j].state) ==> i == j)
  }

  lemma LegalHistoryBridgesOnce(h: seq<Entry>)
    requires LegalHistory(h)
    ensures BridgedAndEndedOnce(h)
  {
    forall i, j | 0 <= i < |h| && 0 <= j < |h| && Rank(h[i].state) == Rank(h[j].state) ensures i == j {
      Laws.SameRankSameEntry(h, i, j);
    }
  }

  /** The wire and the webhook, over a run: what the provider sends for the call arrives, in any order
      and any number of times, among whatever else happens; nobody forges its events. */
  ghost predicate Relayed(w: World, steps: seq<Step>, provider: string, pcid: string, sent: seq<P.Delivery>) {
    && Genuine(w.db.events, provider, pcid, sent) && OnlyGenuine(steps, provider, pcid, sent)
    && AllArrive(w.db.events, steps, provider, sent)
  }

  /** A run that takes one live call through its provider's lifecycle: none of its events has been
      applied yet, and at the end all that arrived have been. */
  ghost predicate TakesThrough(w: World, steps: seq<Step>, c: nat, pcid: string, ops: seq<P.Op>,
                               answered: bool, x: P.Draws, y: P.Draws, z: P.Draws)
  {
    && CanRun(w, steps) && c in w.db.calls && w.db.calls[c].pcid == Some(pcid)
    && 2 <= Rank(w.db.calls[c].state) < TERMINAL_RANK
    && P.Only(ops, pcid) == P.Script(pcid, answered, x, y, z) && DistinctIds(answered, x, y, z)
    && Relayed(w, steps, w.db.calls[c].provider, pcid, P.SentTo(P.Run(ops).sent, pcid))
    && Unread(w.db.events, w.db.calls[c].provider, pcid) && ReadsRows(w, steps, c)
    && Drained(After(w, steps).db.events, w.db.calls[c].provider, pcid)
  }

  /** End to end. The provider runs a call's lifecycle with whatever duplicates, reorderings and other
      calls; its deliveries reach the ledger in any order, any number of times; any appliers, with reads
      however old, drain it among any other steps of the protocol. A call that was live when its first
      event was applied is then in its lifecycle's terminal state, unless a pullback or the reaper ended
      it first. In any case it was bridged at most once and ended once, and its borrower was charged its
      attempt, once. */
  lemma LifecycleEndsTheCall(w: World, steps: seq<Step>, c: nat, pcid: string, ops: seq<P.Op>,
                             answered: bool, x: P.Draws, y: P.Draws, z: P.Draws)
    requires TakesThrough(w, steps, c, pcid, ops, answered, x, y, z) && Inv(w)
    ensures var v := After(w, steps);
      && c in v.db.calls && Terminal(v.db.calls[c].state) && c in v.history && BridgedAndEndedOnce(v.history[c])
      && (v.db.calls[c].state == EndOf(answered) || Taken(v, c))
    ensures var (b, n) := (w.db.calls[c].borrower, w.db.calls[c].attempt);
      && b in w.db.borrowers && w.db.borrowers[b].attempts == n - 1
      && b in After(w, steps).db.borrowers && n <= After(w, steps).db.borrowers[b].attempts
      && Laws.AttemptsCounted(After(w, steps).db, b)
  {
    hide Inv, CanRun, After, P.Only, P.Run, P.Script, P.SentTo, P.Elements, P.Lifecycle, Holds, Drained, ReadsRows;
    hide Unread, ReportsOnly, ReportsEnd, LegalHistory, Laws.AttemptsCounted, DistinctIds, CopiesOnly;
    hide Genuine, OnlyGenuine, AllArrive, Taken;
    var v, sent := After(w, steps), P.SentTo(P.Run(ops).sent, pcid);
    P.LifecycleIsDelivered(ops, pcid, answered, x, y, z);
    DistinctIdsNameCopies(sent, pcid, answered, x, y, z);
    WhatIsSentIsHeld(w, steps, w.db.calls[c].provider, pcid, sent);
    WhatIsDelivered(w, steps, c, pcid, sent, answered, x, y, z);
    TheEndIsDelivered(w, steps, c, pcid, sent, answered, x, y, z);
    LifecycleReachesItsEnd(w, steps, c, EndOf(answered));
    RunKeepsInv(w, steps);
    Preservation.HistoryKnown(v);
    RunKeepsIdentity(w, steps, c);
    Preservation.CallHistory(v, c);
    LegalHistoryBridgesOnce(v.history[c]);
    if Taken(v, c) {
      TakenIsTerminal(v, c);
    }
    LiveCallHasNextAttempt(w, c);
    FinishedCallIsCounted(v, c);
  }

  lemma TakenIsTerminal(w: World, c: nat)
    requires Taken(w, c) && c in w.db.calls && Inv(w)
    ensures Terminal(w.db.calls[c].state)
  {
    hide Inv;
    Preservation.CallHistory(w, c);
  }

  lemma LiveCallHasNextAttempt(w: World, c: nat)
    requires Inv(w) && c in w.db.calls && Live(w.db.calls[c])
    ensures var (b, n) := (w.db.calls[c].borrower, w.db.calls[c].attempt);
      b in w.db.borrowers && w.db.borrowers[b].attempts == n - 1
  {
    hide Inv;
    CallHasBorrower(w, c);
    Laws.AllAttemptsCounted(w);
    assert c in Laws.CallsOf(w.db, w.db.calls[c].borrower, true);
  }

  lemma FinishedCallIsCounted(w: World, c: nat)
    requires Inv(w) && c in w.db.calls && !Live(w.db.calls[c])
    ensures var (b, n) := (w.db.calls[c].borrower, w.db.calls[c].attempt);
      b in w.db.borrowers && n <= w.db.borrowers[b].attempts && Laws.AttemptsCounted(w.db, b)
  {
    hide Inv;
    CallHasBorrower(w, c);
    Laws.AllAttemptsCounted(w);
    assert c in Laws.CallsOf(w.db, w.db.calls[c].borrower, false);
  }

  lemma CallHasBorrower(w: World, c: nat)
    requires Inv(w) && c in w.db.calls
    ensures w.db.calls[c].borrower in w.db.borrowers
  {
    InvIsShaped(w);
    hide Inv;
  }
}
