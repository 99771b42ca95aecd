/** Runs that meet every hypothesis of the end-to-end theorem: nobody answers, the provider reorders
    and duplicates, another call is in flight, the duplicate reaches the ledger twice, and the second
    applier decides on a read taken before the first one committed. */
module Example {
  import opened Domain
  import opened Rows
  import opened World
  import opened Protocol
  import opened Runs
  import opened Deduplication
  import Accounting
  import EndToEnd
  import EventNames
  import Finality
  import Lifecycle
  import Limits
  import Preservation
  import Transactions
  import P = Provider

  const X: P.Draws := P.Draws("e1", false, false)
  const Y: P.Draws := P.Draws("e2", true, true)

  const OPS: seq<P.Op> := [
    P.Op.Emit("pcid", "e1", "ringing", false, false),
    P.Op.Emit("other", "f1", "ringing", false, false),
    P.Op.Emit("pcid", "e2", "no-answer", true, true),
    P.Op.Flush("pcid")]

  const FAILURE: P.Delivery := P.Delivery("pcid", "e2", "FAILED")
  const RINGING: P.Delivery := P.Delivery("pcid", "e1", "RINGING")

  const FAILURE_ARRIVES: Step := Ingest(1, "mock_a", "e2", Some("pcid"), "FAILED")
  const RINGING_ARRIVES: Step := Ingest(2, "mock_a", "e1", Some("pcid"), "RINGING")
  const COPY_ARRIVES: Step := Ingest(3, "mock_a", "e2", Some("pcid"), "FAILED")
  const FAILURE_APPLIED: Step := Deliver(1, 1, CallState.Initiated, CallState.Failed, 8.0, 0.0)
  const RINGING_APPLIED: Step := Deliver(2, 1, CallState.Initiated, CallState.Ringing, 8.0, 0.0)

  const PULLBACK: Step := Cancel(1, 0.0)

  const ARRIVING: seq<Step> := [FAILURE_ARRIVES, RINGING_ARRIVES, COPY_ARRIVES]
  const APPLYING: seq<Step> := [FAILURE_APPLIED, RINGING_APPLIED]

  const FAILURE_ROW: Event := Event("mock_a", "e2", Some("pcid"), "FAILED", false, None, None)
  const RINGING_ROW: Event := Event("mock_a", "e1", Some("pcid"), "RINGING", false, None, None)

  const HALF_RECEIVED: World := Limits.DIALLED.(db := Limits.DIALLED.db.(events := map[1 := FAILURE_ROW]))
  const RECEIVED: World := Limits.DIALLED.(db := Limits.DIALLED.db.(events := map[1 := FAILURE_ROW, 2 := RINGING_ROW]))

  lemma Received()
    ensures Shaped(Limits.DIALLED) && Enabled(Limits.DIALLED, FAILURE_ARRIVES)
    ensures Do(Limits.DIALLED, FAILURE_ARRIVES) == HALF_RECEIVED
    ensures Shaped(HALF_RECEIVED) && Enabled(HALF_RECEIVED, RINGING_ARRIVES)
    ensures Do(HALF_RECEIVED, RINGING_ARRIVES) == RECEIVED
    ensures Shaped(RECEIVED) && Enabled(RECEIVED, COPY_ARRIVES) && Do(RECEIVED, COPY_ARRIVES) == RECEIVED
    ensures Reachable(RECEIVED)
  {
    hide Reachable, Shaped;
    Limits.DialledIsReachable();
    StepIsReachable(Limits.DIALLED, FAILURE_ARRIVES);
    assert !Transactions.EventTaken(Limits.DIALLED.db, "mock_a", "e2");
    StepIsReachable(HALF_RECEIVED, RINGING_ARRIVES);
    assert "e1"[1] != "e2"[1];
    assert !Transactions.EventTaken(HALF_RECEIVED.db, "mock_a", "e1");
    assert Transactions.EventTaken(RECEIVED.db, "mock_a", "e2") by {
      assert RECEIVED.db.events[1].eventId == "e2";
    }
    StepIsReachable(RECEIVED, COPY_ARRIVES);
  }

  /** Call 1 of w can still be read as it was when it was dialled. */
  ghost predicate Readable(w: World) {
    && 1 in w.db.calls && w.db.calls[1].pcid == Some("pcid") && w.db.calls[1].provider == "mock_a"
    && 1 in w.history && |w.history[1]| >= 2 && w.history[1][1].state.Initiated?
  }

  lemma StaysReadable(w: World, s: Step)
    requires Readable(w) && Shaped(w) && Enabled(w, s)
    ensures Readable(Do(w, s))
  {
    hide Shaped, Enabled, Do;
    EndToEnd.StepKeepsIdentity(w, s, 1);
    Finality.StepGrows(w, s);
    assert w.history[1] <= Do(w, s).history[1];
  }

  /** Event e of w names call 1 and is unapplied, so an applier may deliver it with that old read. */
  lemma CanDeliver(w: World, e: nat, incoming: CallState)
    requires Readable(w) && e in w.db.events && !w.db.events[e].applied
    requires w.db.events[e].pcid == Some("pcid") && w.db.events[e].provider == "mock_a"
    ensures Enabled(w, Deliver(e, 1, CallState.Initiated, incoming, 8.0, 0.0))
  {
    assert w.history[1][1].state == CallState.Initiated;
  }

  /** A delivery marks its own row and leaves the other rows of the ledger alone. */
  lemma DeliveryProcesses(w: World, s: Step)
    requires s.Deliver? && s.e in w.db.events && Shaped(w) && Enabled(w, s)
    ensures var after := Do(w, s).db.events;
      && s.e in after && after == w.db.events[s.e := after[s.e]]
      && after[s.e].applied && after[s.e].anomaly != Some(UnknownCall)
  {
    Lifecycle.ShapedForeignKeys(w);
    Lifecycle.DoDeliver(w, s);
    hide Shaped, Do, WasCommitted;
    MarkedIsProcessed(w.db, s.e, s.c, s.seen, s.incoming, w.now, s.wrapup, s.wall);
  }

  lemma MarkedIsProcessed(db: Transactions.Db, e: nat, c: nat, seen: CallState, incoming: CallState,
                          now: Time, wrapup: Time, wall: Time)
    requires e in db.events && c in db.calls && Transactions.ForeignKeys(db)
    ensures var after := Transactions.TxApply(db, e, c, seen, incoming, now, wrapup, wall).events;
      && e in after && after == db.events[e := after[e]] && after[e].applied && after[e].anomaly != Some(UnknownCall)
  {
    ApplyKeepsOtherRows(db, e, c, seen, incoming, now, wrapup, wall);
  }

  lemma OneMoreStep(w: World, s: Step, rest: seq<Step>, c: nat)
    requires Shaped(w) && Enabled(w, s) && CanRun(Do(w, s), rest) && EndToEnd.ReadsRows(Do(w, s), rest, c)
    requires s.Deliver? && s.e in w.db.events ==> EventNames.Incoming(w.db.events[s.e].etype) == Some(s.incoming)
    ensures CanRun(w, [s] + rest) && After(w, [s] + rest) == After(Do(w, s), rest)
    ensures EndToEnd.ReadsRows(w, [s] + rest, c)
  {
    hide Shaped, Enabled, Do, EventNames.Incoming;
    assert ([s] + rest)[1..] == rest;
  }

  lemma NothingRun(w: World)
    ensures CanRun(w, []) && After(w, []) == w
  {
  }

  /** The other call's emit is filtered out. */
  lemma OnlyTheScript()
    ensures P.Only(OPS, "pcid") == P.Script("pcid", false, X, Y, X)
  {
    assert |"other"| == 5 && |"pcid"| == 4;
    assert OPS[..3][..2] == OPS[..2] && OPS[..2][..1] == OPS[..1] && OPS[..1][..0] == [];
    assert P.Only(OPS[..1], "pcid") == [OPS[0]];
    assert P.Only(OPS[..2], "pcid") == [OPS[0]];
    assert P.Only(OPS[..3], "pcid") == [OPS[0], OPS[2]];
  }

  /** Both events are applied, from any state in which they are waiting, and nothing is left to apply. */
  lemma ApplyingRuns(start: World)
    requires Reachable(start) && Readable(start) && start.db.events == RECEIVED.db.events
    ensures CanRun(start, APPLYING) && EndToEnd.ReadsRows(start, APPLYING, 1)
    ensures forall e :: e in After(start, APPLYING).db.events ==> Processed(After(start, APPLYING).db.events[e])
  {
    hide Reachable, Shaped, Enabled, Do, EventNames.Incoming;
    CanDeliver(start, 1, CallState.Failed);
    StepIsReachable(start, FAILURE_APPLIED);
    var failed := Do(start, FAILURE_APPLIED);
    DeliveryProcesses(start, FAILURE_APPLIED);
    StaysReadable(start, FAILURE_APPLIED);
    CanDeliver(failed, 2, CallState.Ringing);
    StepIsReachable(failed, RINGING_APPLIED);
    var done := Do(failed, RINGING_APPLIED);
    DeliveryProcesses(failed, RINGING_APPLIED);
    EventNames.SentNames();
    NothingRun(done);
    hide CanRun, After, EndToEnd.ReadsRows, Readable;
    OneMoreStep(failed, RINGING_APPLIED, [], 1);
    OneMoreStep(start, FAILURE_APPLIED, [RINGING_APPLIED] + [], 1);
    assert [FAILURE_APPLIED] + ([RINGING_APPLIED] + []) == APPLYING;
  }

  /** Whatever can be run once everything has arrived can be run after the arrivals. */
  lemma ArrivingRuns(rest: seq<Step>)
    requires CanRun(RECEIVED, rest) && EndToEnd.ReadsRows(RECEIVED, rest, 1)
    ensures CanRun(Limits.DIALLED, ARRIVING + rest) && EndToEnd.ReadsRows(Limits.DIALLED, ARRIVING + rest, 1)
    ensures After(Limits.DIALLED, ARRIVING + rest) == After(RECEIVED, rest)
  {
    hide Shaped, Enabled, Do, Reachable, CanRun, After, EndToEnd.ReadsRows;
    Received();
    OneMoreStep(RECEIVED, COPY_ARRIVES, rest, 1);
    OneMoreStep(HALF_RECEIVED, RINGING_ARRIVES, [COPY_ARRIVES] + rest, 1);
    OneMoreStep(Limits.DIALLED, FAILURE_ARRIVES, [RINGING_ARRIVES] + ([COPY_ARRIVES] + rest), 1);
    assert [FAILURE_ARRIVES] + ([RINGING_ARRIVES] + ([COPY_ARRIVES] + rest)) == ARRIVING + rest;
  }

  lemma ArrivalsAreRelayed(rest: seq<Step>, sent: seq<P.Delivery>)
    requires P.Elements(sent) == {RINGING, FAILURE} && forall i :: 0 <= i < |rest| ==> !rest[i].Ingest?
    ensures EndToEnd.Relayed(Limits.DIALLED, ARRIVING + rest, "mock_a", "pcid", sent)
  {
    assert FAILURE in P.Elements(sent) && RINGING in P.Elements(sent);
    var f :| 0 <= f < |sent| && sent[f] == FAILURE;
    var r :| 0 <= r < |sent| && sent[r] == RINGING;
    assert RowOf(FAILURE_ROW, "mock_a", sent[f]) && RowOf(RINGING_ROW, "mock_a", sent[r]);
    hide Concerns;
    assert SentAs(FAILURE_ROW, "mock_a", sent) && SentAs(RINGING_ROW, "mock_a", sent);
    var steps := ARRIVING + rest;
    assert forall i :: 3 <= i < |steps| ==> steps[i] == rest[i - 3];
    assert OnlyGenuine(steps, "mock_a", "pcid", sent);
    assert RowOf(Arrival(steps[0]), "mock_a", FAILURE) && RowOf(Arrival(steps[1]), "mock_a", RINGING);
    hide RowOf, SentAs;
    forall i | 0 <= i < |sent| ensures Arrives(steps, "mock_a", sent[i]) {
      assert sent[i] in P.Elements(sent);
    }
  }

  lemma WhatIsSent()
    ensures P.Only(OPS, "pcid") == P.Script("pcid", false, X, Y, X) && EndToEnd.DistinctIds(false, X, Y, X)
    ensures P.Elements(P.SentTo(P.Run(OPS).sent, "pcid")) == {RINGING, FAILURE}
  {
    OnlyTheScript();
    assert "e1"[1] != "e2"[1];
    hide P.Only, P.Script, P.Run, P.SentTo, P.Elements;
    P.LifecycleIsDelivered(OPS, "pcid", false, X, Y, X);
    assert P.Lifecycle("pcid", false, X, Y, X) == {RINGING, FAILURE};
  }

  lemma DialledCallIsUnread()
    ensures 1 in Limits.DIALLED.db.calls
    ensures var k := Limits.DIALLED.db.calls[1];
      k.pcid == Some("pcid") && k.provider == "mock_a" && 2 <= Rank(k.state) < TERMINAL_RANK
    ensures EndToEnd.Unread(Limits.DIALLED.db.events, "mock_a", "pcid")
  {
  }

  /** Runs that begin with the arrivals and end with everything applied meet the hypotheses of the
      end-to-end theorem. */
  lemma ArrivalsThenTakeThrough(rest: seq<Step>)
    requires CanRun(RECEIVED, rest) && EndToEnd.ReadsRows(RECEIVED, rest, 1)
    requires forall i :: 0 <= i < |rest| ==> !rest[i].Ingest?
    requires forall e :: e in After(RECEIVED, rest).db.events ==> Processed(After(RECEIVED, rest).db.events[e])
    ensures EndToEnd.TakesThrough(Limits.DIALLED, ARRIVING + rest, 1, "pcid", OPS, false, X, Y, X)
  {
    hide CanRun, After, EndToEnd.ReadsRows, EndToEnd.Relayed, P.Only, P.Script, P.Run, P.SentTo, P.Elements;
    hide EndToEnd.Unread, EndToEnd.DistinctIds, Processed, Names;
    DialledCallIsUnread();
    ArrivingRuns(rest);
    WhatIsSent();
    ArrivalsAreRelayed(rest, P.SentTo(P.Run(OPS).sent, "pcid"));
  }

  /** The hypotheses can be met from a reachable state, and the call then ends where its lifecycle did. */
  lemma SomeRunTakesACallThrough()
    ensures Reachable(Limits.DIALLED)
    ensures EndToEnd.TakesThrough(Limits.DIALLED, ARRIVING + APPLYING, 1, "pcid", OPS, false, X, Y, X)
  {
    hide Reachable, CanRun, After, EndToEnd.ReadsRows, EndToEnd.TakesThrough;
    Limits.DialledIsReachable();
    Received();
    assert Readable(RECEIVED);
    ApplyingRuns(RECEIVED);
    ArrivalsThenTakeThrough(APPLYING);
  }

  /** If a pullback comes first, the same deliveries, all applied, leave the call CANCELLED: they do not
      by themselves bring it to its lifecycle's end. */
  lemma PullbackTakesTheCall()
    ensures EndToEnd.TakesThrough(Limits.DIALLED, ARRIVING + ([PULLBACK] + APPLYING), 1, "pcid", OPS, false, X, Y, X)
    ensures var v := After(Limits.DIALLED, ARRIVING + ([PULLBACK] + APPLYING));
      1 in v.db.calls && v.db.calls[1].state == CallState.Cancelled && 1 in v.history && EndedByPullback(v.history[1])
  {
    hide Reachable, Inv, Shaped, CanRun, After, EndToEnd.ReadsRows, EndToEnd.TakesThrough;
    Received();
    StepIsReachable(RECEIVED, PULLBACK);
    StaysReadable(RECEIVED, PULLBACK);
    var pulled := Do(RECEIVED, PULLBACK);
    assert pulled.db.events == RECEIVED.db.events;
    Accounting.EffectIsFinal(RECEIVED, PULLBACK);
    hide Enabled, Do;
    ApplyingRuns(pulled);
    OneMoreStep(RECEIVED, PULLBACK, APPLYING, 1);
    ArrivalsThenTakeThrough([PULLBACK] + APPLYING);
    ArrivingRuns([PULLBACK] + APPLYING);
    ReachableHasInv(pulled);
    Accounting.FinishedHistoryStays(pulled, APPLYING, 1);
    RunKeepsInv(pulled, APPLYING);
    var v := After(pulled, APPLYING);
    Preservation.HistoryKnown(v);
    Preservation.CallHistory(v, 1);
  }
}
