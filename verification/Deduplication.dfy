/** The event ledger over runs: rows are kept, ids are unique, and whatever was sent is recorded once
    however often and whenever it arrives (src/smartdialer/repo/events.py). */
module Deduplication {
  import opened Domain
  import opened Rows
  import opened Transactions
  import opened World
  import opened Protocol
  import opened Runs
  import Lifecycle
  import Recovery
  import P = Provider

  predicate SameEvent(x: Event, y: Event) { x.provider == y.provider && x.eventId == y.eventId }

  // ---- what no step does to a ledger row

  predicate RowKept(x: Event, y: Event) {
    && x.provider == y.provider && x.eventId == y.eventId && x.pcid == y.pcid && x.etype == y.etype
    && (x.applied ==> y == x)
  }

  ghost predicate RowsKept(before: map<nat, Event>, after: map<nat, Event>) {
    forall e :: e in before ==> e in after && RowKept(before[e], after[e])
  }

  /** The event was applied to a call, with or without an anomaly; not given up on. */
  predicate Processed(ev: Event) { ev.applied && ev.anomaly != Some(UnknownCall) }

  lemma ApplyKeepsOtherRows(db: Db, e: nat, c: nat, seen: CallState, incoming: CallState,
                            now: Time, wrapup: Time, wall: Time)
    requires e in db.events && c in db.calls && ForeignKeys(db)
    ensures var after := TxApply(db, e, c, seen, incoming, now, wrapup, wall);
      e in after.events && after.events == db.events[e := after.events[e]]
      && after.events[e]
         == db.events[e].(applied := true, anomaly := after.events[e].anomaly, call := after.events[e].call)
  {
    hide CanApply, Advance;
  }

  /** The step settles no row but the one it delivers. */
  ghost predicate SettlesOnly(before: map<nat, Event>, after: map<nat, Event>, s: Step) {
    forall e :: e in after && Processed(after[e]) && (e in before ==> !before[e].applied) ==> s.Deliver? && s.e == e
  }

  /** The step adds no row but the one it ingests, under an id the ledger has not seen. */
  ghost predicate AddsOnly(before: map<nat, Event>, after: map<nat, Event>, s: Step) {
    forall e :: e in after && e !in before ==>
      && s.Ingest? && s.e == e && after[e] == Event(s.provider, s.eventId, s.ref, s.etype, false, None, None)
      && forall f :: f in before ==> !SameEvent(before[f], after[e])
  }

  lemma MarkStepKeepsRows(w: World, s: Step)
    requires Shaped(w) && Enabled(w, s) && (s.Unknown? || s.GiveUp?)
    ensures var (before, after) := (w.db.events, Do(w, s).db.events);
      RowsKept(before, after) && SettlesOnly(before, after, s) && AddsOnly(before, after, s)
  {
    hide Shaped;
  }

  lemma IngestKeepsRows(w: World, s: Step)
    requires Shaped(w) && Enabled(w, s) && s.Ingest?
    ensures var (before, after) := (w.db.events, Do(w, s).db.events);
      RowsKept(before, after) && SettlesOnly(before, after, s) && AddsOnly(before, after, s)
  {
    hide Shaped, RowsKept, SettlesOnly, AddsOnly;
    SameRowsKept(w.db.events, s);
    if !EventTaken(w.db, s.provider, s.eventId) {
      NewRowKeepsRows(w.db, s);
    }
  }

  lemma SameRowsKept(events: map<nat, Event>, s: Step)
    ensures RowsKept(events, events) && SettlesOnly(events, events, s) && AddsOnly(events, events, s)
  {
  }

  lemma NewRowKeepsRows(db: Db, s: Step)
    requires s.Ingest? && s.e !in db.events && !EventTaken(db, s.provider, s.eventId)
    ensures var after := db.events[s.e := Event(s.provider, s.eventId, s.ref, s.etype, false, None, None)];
      RowsKept(db.events, after) && SettlesOnly(db.events, after, s) && AddsOnly(db.events, after, s)
  {
  }

  lemma DeliverKeepsRows(w: World, s: Step)
    requires Shaped(w) && Enabled(w, s) && s.Deliver?
    ensures var (before, after) := (w.db.events, Do(w, s).db.events);
      RowsKept(before, after) && SettlesOnly(before, after, s) && AddsOnly(before, after, s)
  {
    Lifecycle.ShapedForeignKeys(w);
    hide TxApply, WasCommitted, Shaped, Do;
    ApplyKeepsOtherRows(w.db, s.e, s.c, s.seen, s.incoming, w.now, s.wrapup, s.wall);
    Lifecycle.DoDeliver(w, s);
    hide Enabled;
    OneRowKept(w.db.events, s.e, Do(w, s).db.events[s.e], s);
  }

  lemma OneRowKept(events: map<nat, Event>, e: nat, row: Event, s: Step)
    requires e in events && RowKept(events[e], row) && s.Deliver? && s.e == e
    ensures RowsKept(events, events[e := row]) && SettlesOnly(events, events[e := row], s)
    ensures AddsOnly(events, events[e := row], s)
  {
  }

  lemma RosterStepKeepsEvents(w: World, s: Step)
    requires Shaped(w) && Enabled(w, s) && (s.AddAgent? || s.AddBorrower? || s.SetPresence? || s.Crash? || s.Elapse?)
    ensures Do(w, s).db.events == w.db.events
  {
    hide Shaped, Enabled;
  }

  lemma WorkerStepKeepsEvents(w: World, s: Step)
    requires Shaped(w) && Enabled(w, s) && (s.Place? || s.Reject? || s.Initiate? || s.Cancel?)
    ensures Do(w, s).db.events == w.db.events
  {
    hide Shaped, Enabled, RefTaken, KeyTaken;
  }

  lemma ReapKeepsEvents(w: World, s: Step)
    requires Shaped(w) && Enabled(w, s) && s.Reap?
    ensures Do(w, s).db.events == w.db.events
  {
    Recovery.FailAllKeepsEvents(w.db, s.orphans, s.wall);
    Recovery.ReapRows(w.db, s.orphans, s.t, s.wall);
    Lifecycle.DoReap(w, s);
    hide Do, TxReap, FailAll;
  }

  lemma StepKeepsRows(w: World, s: Step)
    requires Shaped(w) && Enabled(w, s)
    ensures var (before, after) := (w.db.events, Do(w, s).db.events);
      RowsKept(before, after) && SettlesOnly(before, after, s) && AddsOnly(before, after, s)
  {
    hide Shaped, Enabled, Do;
    if s.Ingest? {
      IngestKeepsRows(w, s);
    } else if s.Unknown? || s.GiveUp? {
      MarkStepKeepsRows(w, s);
    } else if s.Deliver? {
      DeliverKeepsRows(w, s);
    } else if s.Reap? {
      ReapKeepsEvents(w, s);
    } else if s.Place? || s.Reject? || s.Initiate? || s.Cancel? {
      WorkerStepKeepsEvents(w, s);
    } else {
      RosterStepKeepsEvents(w, s);
    }
  }

  /** The ledger is append-only, and an applied row is final. */
  lemma {:induction false} RunKeepsRows(w: World, steps: seq<Step>)
    requires CanRun(w, steps)
    ensures RowsKept(w.db.events, After(w, steps).db.events)
    decreases |steps|
  {
    hide Shaped, Enabled, Do;
    if steps != [] {
      StepKeepsRows(w, steps[0]);
      RunKeepsRows(Do(w, steps[0]), steps[1..]);
    }
  }

  // ---- ids are unique

  ghost predicate LedgerUnique(events: map<nat, Event>) {
    forall e, f :: e in events && f in events && SameEvent(events[e], events[f]) ==> e == f
  }

  lemma OneNewRowKeepsUnique(before: map<nat, Event>, after: map<nat, Event>, s: Step)
    requires LedgerUnique(before) && RowsKept(before, after) && AddsOnly(before, after, s)
    ensures LedgerUnique(after)
  {
    forall e, f | e in after && f in after && SameEvent(after[e], after[f]) ensures e == f {
      assert e in before && f in before ==> SameEvent(before[e], before[f]);
    }
  }

  /** UNIQUE (provider, provider_event_id) over any run. */
  lemma {:induction false} RunKeepsLedgerUnique(w: World, steps: seq<Step>)
    requires CanRun(w, steps) && LedgerUnique(w.db.events)
    ensures LedgerUnique(After(w, steps).db.events)
    decreases |steps|
  {
    hide Shaped, Enabled, Do, LedgerUnique, RowsKept, AddsOnly, SettlesOnly;
    if steps != [] {
      StepKeepsRows(w, steps[0]);
      OneNewRowKeepsUnique(w.db.events, Do(w, steps[0]).db.events, steps[0]);
      RunKeepsLedgerUnique(Do(w, steps[0]), steps[1..]);
    }
  }

  // ---- from what was sent to what the ledger holds

  predicate RowOf(ev: Event, provider: string, d: P.Delivery) {
    ev.provider == provider && ev.eventId == d.eventId && ev.pcid == Some(d.pcid) && ev.etype == d.etype
  }

  ghost predicate HasRow(events: map<nat, Event>, provider: string, d: P.Delivery) {
    exists e :: e in events && RowOf(events[e], provider, d)
  }

  ghost predicate SentAs(ev: Event, provider: string, sent: seq<P.Delivery>) {
    exists i :: 0 <= i < |sent| && RowOf(ev, provider, sent[i])
  }

  predicate Names(ev: Event, provider: string, pcid: string) { ev.provider == provider && ev.pcid == Some(pcid) }

  /** The row names the call, or reuses the id of something sent for it. */
  ghost predicate Concerns(ev: Event, provider: string, pcid: string, sent: seq<P.Delivery>) {
    Names(ev, provider, pcid)
    || (ev.provider == provider && exists i :: 0 <= i < |sent| && sent[i].eventId == ev.eventId)
  }

  /** The ledger says of the call only what was sent for it. */
  ghost predicate Genuine(events: map<nat, Event>, provider: string, pcid: string, sent: seq<P.Delivery>) {
    forall e :: e in events && Concerns(events[e], provider, pcid, sent) ==> SentAs(events[e], provider, sent)
  }

  function Arrival(s: Step): Event
    requires s.Ingest?
  {
    Event(s.provider, s.eventId, s.ref, s.etype, false, None, None)
  }

  /** Nobody else reports events of the call or reuses its events' ids. */
  ghost predicate OnlyGenuine(steps: seq<Step>, provider: string, pcid: string, sent: seq<P.Delivery>) {
    forall i :: 0 <= i < |steps| && steps[i].Ingest? && Concerns(Arrival(steps[i]), provider, pcid, sent) ==>
      SentAs(Arrival(steps[i]), provider, sent)
  }

  ghost predicate Arrives(steps: seq<Step>, provider: string, d: P.Delivery) {
    exists i :: 0 <= i < |steps| && steps[i].Ingest? && RowOf(Arrival(steps[i]), provider, d)
  }

  /** Every delivery reaches the webhook, if it is not in the ledger yet. */
  ghost predicate AllArrive(events: map<nat, Event>, steps: seq<Step>, provider: string, sent: seq<P.Delivery>) {
    forall i :: 0 <= i < |sent| ==> HasRow(events, provider, sent[i]) || Arrives(steps, provider, sent[i])
  }

  /** An id names one event: two deliveries with the same id are copies of each other. */
  predicate CopiesOnly(sent: seq<P.Delivery>) {
    forall i, j :: 0 <= i < |sent| && 0 <= j < |sent| && sent[i].eventId == sent[j].eventId ==> sent[i] == sent[j]
  }

  lemma KeptRowIsRow(before: map<nat, Event>, after: map<nat, Event>, provider: string, d: P.Delivery)
    requires RowsKept(before, after) && HasRow(before, provider, d)
    ensures HasRow(after, provider, d)
  {
    var e :| e in before && RowOf(before[e], provider, d);
    assert RowOf(after[e], provider, d);
  }

  lemma KeptRowSays(x: Event, y: Event, provider: string, pcid: string, sent: seq<P.Delivery>)
    requires RowKept(x, y)
    ensures Concerns(x, provider, pcid, sent) <==> Concerns(y, provider, pcid, sent)
    ensures SentAs(x, provider, sent) <==> SentAs(y, provider, sent)
  {
    if SentAs(x, provider, sent) {
      var i :| 0 <= i < |sent| && RowOf(x, provider, sent[i]);
      assert RowOf(y, provider, sent[i]);
    }
    if SentAs(y, provider, sent) {
      var i :| 0 <= i < |sent| && RowOf(y, provider, sent[i]);
      assert RowOf(x, provider, sent[i]);
    }
  }

  lemma StepKeepsGenuine(before: map<nat, Event>, after: map<nat, Event>, s: Step,
                         provider: string, pcid: string, sent: seq<P.Delivery>)
    requires Genuine(before, provider, pcid, sent) && RowsKept(before, after) && AddsOnly(before, after, s)
    requires s.Ingest? && Concerns(Arrival(s), provider, pcid, sent) ==> SentAs(Arrival(s), provider, sent)
    ensures Genuine(after, provider, pcid, sent)
  {
    hide Concerns, SentAs, RowKept;
    forall e | e in after && Concerns(after[e], provider, pcid, sent) ensures SentAs(after[e], provider, sent) {
      if e in before {
        KeptRowSays(before[e], after[e], provider, pcid, sent);
      }
    }
  }

  /** A genuine event that arrives is in the ledger afterwards: inserted, or found under its id. */
  lemma IngestRecords(w: World, s: Step, provider: string, pcid: string, sent: seq<P.Delivery>, i: nat)
    requires Shaped(w) && Enabled(w, s) && s.Ingest? && i < |sent| && RowOf(Arrival(s), provider, sent[i])
    requires CopiesOnly(sent) && Genuine(w.db.events, provider, pcid, sent)
    ensures HasRow(Do(w, s).db.events, provider, sent[i])
  {
    hide Shaped;
    if EventTaken(w.db, s.provider, s.eventId) {
      var e :| e in w.db.events && w.db.events[e].provider == s.provider && w.db.events[e].eventId == s.eventId;
      assert sent[i].eventId == w.db.events[e].eventId;
      assert Concerns(w.db.events[e], provider, pcid, sent);
      var j :| 0 <= j < |sent| && RowOf(w.db.events[e], provider, sent[j]);
      assert sent[j] == sent[i];
    } else {
      assert RowOf(Do(w, s).db.events[s.e], provider, sent[i]);
    }
  }

  lemma {:induction false} RunKeepsGenuine(w: World, steps: seq<Step>, provider: string, pcid: string,
                                           sent: seq<P.Delivery>)
    requires CanRun(w, steps) && Genuine(w.db.events, provider, pcid, sent)
    requires OnlyGenuine(steps, provider, pcid, sent)
    ensures Genuine(After(w, steps).db.events, provider, pcid, sent)
    decreases |steps|
  {
    hide Shaped, Enabled, Do, Genuine, RowsKept, AddsOnly, SettlesOnly, Concerns, SentAs;
    if steps != [] {
      StepKeepsRows(w, steps[0]);
      StepKeepsGenuine(w.db.events, Do(w, steps[0]).db.events, steps[0], provider, pcid, sent);
      assert forall i :: 0 <= i < |steps| - 1 ==> steps[1..][i] == steps[i + 1];
      RunKeepsGenuine(Do(w, steps[0]), steps[1..], provider, pcid, sent);
    }
  }

  lemma {:induction false} RunRecords(w: World, steps: seq<Step>, provider: string, pcid: string,
                                      sent: seq<P.Delivery>, i: nat)
    requires CanRun(w, steps) && Genuine(w.db.events, provider, pcid, sent) && CopiesOnly(sent)
    requires OnlyGenuine(steps, provider, pcid, sent)
    requires i < |sent| && (HasRow(w.db.events, provider, sent[i]) || Arrives(steps, provider, sent[i]))
    ensures HasRow(After(w, steps).db.events, provider, sent[i])
    decreases |steps|
  {
    hide Shaped, Enabled, Do, Genuine, RowsKept, AddsOnly, SettlesOnly, Concerns, SentAs, CopiesOnly, HasRow;
    if steps != [] {
      var s, rest, u := steps[0], steps[1..], Do(w, steps[0]);
      StepKeepsRows(w, s);
      StepKeepsGenuine(w.db.events, u.db.events, s, provider, pcid, sent);
      assert forall j :: 0 <= j < |rest| ==> rest[j] == steps[j + 1];
      if HasRow(w.db.events, provider, sent[i]) {
        KeptRowIsRow(w.db.events, u.db.events, provider, sent[i]);
      } else {
        var k :| 0 <= k < |steps| && steps[k].Ingest? && RowOf(Arrival(steps[k]), provider, sent[i]);
        if k == 0 {
          IngestRecords(w, s, provider, pcid, sent, i);
        } else {
          assert rest[k - 1] == steps[k];
        }
      }
      RunRecords(u, rest, provider, pcid, sent, i);
    }
  }

  /** Under this call's reference the ledger holds what was sent and nothing else. */
  ghost predicate Holds(events: map<nat, Event>, provider: string, pcid: string, sent: seq<P.Delivery>) {
    && (forall i :: 0 <= i < |sent| ==> HasRow(events, provider, sent[i]))
    && (forall e :: e in events && Names(events[e], provider, pcid) ==> SentAs(events[e], provider, sent))
  }

  /** However often and whenever the deliveries of a call arrive among the other steps of a run, the
      ledger ends up with a row for each of its events, under a unique id, and with nothing else about
      the call. */
  lemma EachEventIsRecordedOnce(w: World, steps: seq<Step>, provider: string, pcid: string, sent: seq<P.Delivery>)
    requires CanRun(w, steps) && LedgerUnique(w.db.events) && CopiesOnly(sent)
    requires Genuine(w.db.events, provider, pcid, sent) && OnlyGenuine(steps, provider, pcid, sent)
    requires AllArrive(w.db.events, steps, provider, sent)
    ensures Holds(After(w, steps).db.events, provider, pcid, sent) && LedgerUnique(After(w, steps).db.events)
  {
    RunKeepsLedgerUnique(w, steps);
    WhatIsSentIsHeld(w, steps, provider, pcid, sent);
  }

  lemma WhatIsSentIsHeld(w: World, steps: seq<Step>, provider: string, pcid: string, sent: seq<P.Delivery>)
    requires CanRun(w, steps) && CopiesOnly(sent)
    requires Genuine(w.db.events, provider, pcid, sent) && OnlyGenuine(steps, provider, pcid, sent)
    requires AllArrive(w.db.events, steps, provider, sent)
    ensures Holds(After(w, steps).db.events, provider, pcid, sent)
  {
    hide CanRun, After, OnlyGenuine, CopiesOnly, SentAs, HasRow, Arrives;
    RunKeepsGenuine(w, steps, provider, pcid, sent);
    forall i | 0 <= i < |sent| ensures HasRow(After(w, steps).db.events, provider, sent[i]) {
      RunRecords(w, steps, provider, pcid, sent, i);
    }
  }
}
