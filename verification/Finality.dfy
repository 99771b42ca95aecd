/** What no step ever takes back: recorded call states, finished calls, finished borrowers. */
module Finality {
  import opened Domain
  import opened Rows
  import opened Transactions
  import opened World
  import opened Protocol
  import opened Preservation
  import Recovery
  import opened Runs

  // ---- calls

  ghost predicate Grew(h: map<nat, seq<Entry>>, h': map<nat, seq<Entry>>) {
    forall c :: c in h ==> c in h' && h[c] <= h'[c]
  }

  lemma TrackGrows(w: World, db: Db, c: nat, states: seq<CallState>, cause: Cause)
    requires c in w.history && c in db.calls
    ensures Grew(w.history, Track(w, db, c, states, cause).history)
  {
  }

  lemma {:induction false} FailEachGrows(w: World, orphans: seq<nat>, wall: Time)
    requires ForeignKeys(w.db) && w.history.Keys == w.db.calls.Keys
    requires forall c :: c in orphans ==> c in w.db.calls
    ensures Grew(w.history, FailEach(w, orphans, wall).history)
  {
    if orphans != [] {
      hide FailOne, FailAll;
      var front, c := orphans[..|orphans| - 1], orphans[|orphans| - 1];
      FailEachGrows(w, front, wall);
      var v := FailEach(w, front, wall);
      TrackGrows(v, FailOne(v.db, c, wall), c, [CallState.Failed], ByReaper);
      hide ForeignKeys, Track;
    }
  }

  lemma StepGrows(w: World, s: Step)
    requires Shaped(w) && Enabled(w, s)
    ensures Grew(w.history, Do(w, s).history)
  {
    hide Shaped, Enabled, Do, Quiet;
    if s.Place? {
      PlaceGrows(w, s);
    } else if s.Reap? {
      ReapGrows(w, s);
    } else if s.Reject? || s.Cancel? {
      WorkerGrows(w, s);
    } else if s.Initiate? {
      InitiateGrows(w, s);
    } else if s.Deliver? {
      DeliverGrows(w, s);
    } else {
      QuietGrows(w, s);
    }
  }

  lemma QuietGrows(w: World, s: Step)
    requires Shaped(w) && Enabled(w, s)
    requires !s.Place? && !s.Reap? && !s.Reject? && !s.Cancel? && !s.Initiate? && !s.Deliver?
    ensures Grew(w.history, Do(w, s).history)
  {
    hide Shaped, Enabled, TxIngest, TxUnknown, TxGiveUp;
  }

  lemma WorkerGrows(w: World, s: Step)
    requires Shaped(w) && Enabled(w, s) && (s.Reject? || s.Cancel?)
    ensures Grew(w.history, Do(w, s).history)
  {
    hide TxReject, TxCancel;
  }

  lemma InitiateGrows(w: World, s: Step)
    requires Shaped(w) && Enabled(w, s) && s.Initiate?
    ensures Grew(w.history, Do(w, s).history)
  {
    hide TxInitiate, RefTaken;
  }

  lemma DeliverGrows(w: World, s: Step)
    requires Shaped(w) && Enabled(w, s) && s.Deliver?
    ensures Grew(w.history, Do(w, s).history)
  {
    hide TxApply, Writes, WasCommitted;
  }

  lemma PlaceGrows(w: World, s: Step)
    requires Shaped(w) && Enabled(w, s) && s.Place?
    ensures Grew(w.history, Do(w, s).history)
  {
  }

  lemma ReapGrows(w: World, s: Step)
    requires Shaped(w) && Enabled(w, s) && s.Reap?
    ensures Grew(w.history, Do(w, s).history)
  {
    FailEachGrows(w, s.orphans, s.wall);
    hide FailEach, TxReap, Grew;
  }

  lemma {:induction false} RunGrows(w: World, steps: seq<Step>)
    requires CanRun(w, steps)
    ensures Grew(w.history, After(w, steps).history)
    decreases |steps|
  {
    hide Shaped, Enabled, Do;
    if steps != [] {
      StepGrows(w, steps[0]);
      RunGrows(Do(w, steps[0]), steps[1..]);
    }
  }

  /** Nothing follows a terminal entry of a legal history. */
  lemma TerminalEndsHistory(h: seq<Entry>, h': seq<Entry>)
    requires LegalHistory(h') && h != [] && h <= h' && Terminal(h[|h| - 1].state)
    ensures h == h'
  {
    assert h'[|h| - 1] == h[|h| - 1];
    assert |h| <= |h'| - 1 ==> h'[|h| - 1 + 1].state in LegalNext(h'[|h| - 1].state);
  }

  /** No step writes the state of a finished call. */
  lemma TerminalHistoryStays(w: World, s: Step, c: nat)
    requires Shaped(w) && Enabled(w, s) && c in w.db.calls && Terminal(w.db.calls[c].state) && Inv(w)
    ensures c in Do(w, s).db.calls && Do(w, s).db.calls[c].state == w.db.calls[c].state
    ensures c in w.history && c in Do(w, s).history && Do(w, s).history[c] == w.history[c]
  {
    hide Inv, Shaped, Enabled, Do;
    StepKeepsInv(w, s);
    StepGrows(w, s);
    CallHistory(w, c);
    HistoryKnown(Do(w, s));
    CallHistory(Do(w, s), c);
    TerminalEndsHistory(w.history[c], Do(w, s).history[c]);
  }

  /** A finished call keeps its state over every continuation, whatever is delivered late. */
  lemma TerminalNeverReopens(w: World, steps: seq<Step>, c: nat)
    requires Reachable(w) && CanRun(w, steps) && c in w.db.calls && Terminal(w.db.calls[c].state)
    ensures c in After(w, steps).db.calls && After(w, steps).db.calls[c].state == w.db.calls[c].state
  {
    hide Inv, Reachable, CanRun, After;
    var v := After(w, steps);
    ReachableHasInv(w);
    RunKeepsInv(w, steps);
    RunGrows(w, steps);
    CallHistory(w, c);
    HistoryKnown(v);
    CallHistory(v, c);
    TerminalEndsHistory(w.history[c], v.history[c]);
  }

  /** Ranks only climb: a later state of a call is the same state or one of higher rank. */
  lemma RankNeverFalls(w: World, steps: seq<Step>, c: nat)
    requires Reachable(w) && CanRun(w, steps) && c in w.db.calls
    ensures c in After(w, steps).db.calls
    ensures var (k, l) := (w.db.calls[c], After(w, steps).db.calls[c]);
      k.state == l.state || Rank(k.state) < Rank(l.state)
  {
    hide Inv, Reachable, CanRun, After;
    var v := After(w, steps);
    ReachableHasInv(w);
    RunKeepsInv(w, steps);
    RunGrows(w, steps);
    CallHistory(w, c);
    HistoryKnown(v);
    CallHistory(v, c);
    var h, h' := w.history[c], v.history[c];
    var p := seq(|h'|, i requires 0 <= i < |h'| => h'[i].state);
    if |h| < |h'| {
      LegalPathClimbs(p, |h| - 1, |h'| - 1);
    }
  }

  // ---- borrowers

  predicate Finished(b: Borrower) { b.state.Done? || b.state.Exhausted? || b.state.Suppressed? }

  ghost predicate FinishedKept(before: map<nat, Borrower>, after: map<nat, Borrower>) {
    forall b :: b in before && Finished(before[b]) ==> b in after && after[b] == before[b]
  }

  lemma DeliverKeepsFinished(w: World, e: nat, c: nat, seen: CallState, incoming: CallState,
                             wrapup: Time, wall: Time)
    requires Inv(w) && ForeignKeys(w.db) && e in w.db.events && c in w.history && c in w.db.calls
    requires Refers(w.db.events[e], w.db.calls[c]) && WasCommitted(w.history[c], seen)
    ensures FinishedKept(w.db.borrowers, TxApply(w.db, e, c, seen, incoming, w.now, wrapup, wall).borrowers)
  {
    hide Inv, WasCommitted, ForeignKeys, CanApply, LegalNext, TxApply, Transition;
    DeliverMovesIffLegal(w, c, seen, incoming);
    if incoming in LegalNext(w.db.calls[c].state) {
      LiveCallIsAnchored(w, c);
      TransitionRowsFollow(w, c, incoming, wrapup, wall);
      hide RowsFollow;
      AppliedIsTransition(w.db, e, c, seen, incoming, w.now, wrapup, wall);
    } else {
      SkippedIsMark(w.db, e, c, seen, incoming, w.now, wrapup, wall);
    }
  }

  /** The borrower of a live call is not finished. */
  lemma LiveCallsBorrowerIsOpen(w: World, c: nat)
    requires Inv(w) && c in w.db.calls && Live(w.db.calls[c])
    ensures w.db.calls[c].borrower in w.db.borrowers && !Finished(w.db.borrowers[w.db.calls[c].borrower])
  {
    hide Inv;
    LiveCallIsAnchored(w, c);
  }

  lemma OrphanIsLive(w: World, c: nat, t: Time)
    requires Inv(w) && c in w.db.calls && IsOrphan(w.db.calls[c], t)
    ensures Live(w.db.calls[c])
  {
  }

  lemma FailOneKeepsFinished(w: World, c: nat, t: Time, wall: Time)
    requires Inv(w) && c in w.db.calls && ForeignKeys(w.db) && IsOrphan(w.db.calls[c], t)
    ensures FinishedKept(w.db.borrowers, FailOne(w.db, c, wall).borrowers)
  {
    hide Inv;
    OrphanIsLive(w, c, t);
    LiveCallsBorrowerIsOpen(w, c);
  }

  lemma {:induction false} FailEachKeepsFinished(w: World, orphans: seq<nat>, t: Time, wall: Time)
    requires Inv(w) && t <= w.now && Distinct(orphans)
    requires ForeignKeys(w.db) && w.history.Keys == w.db.calls.Keys
    requires forall c :: c in orphans ==> c in w.db.calls && IsOrphan(w.db.calls[c], t)
    ensures FinishedKept(w.db.borrowers, FailAll(w.db, orphans, wall).borrowers)
  {
    hide Inv, IsOrphan, FailOne;
    if orphans != [] {
      var n := |orphans| - 1;
      var c, front := orphans[n], orphans[..n];
      FailEachKeepsFinished(w, front, t, wall);
      Recovery.FailEachKeepsInv(w, front, t, wall);
      Recovery.FailAllCalls(w.db, front, wall);
      FailOneKeepsFinished(FailEach(w, front, wall), c, t, wall);
    }
  }

  lemma ReapKeepsFinished(w: World, t: Time, orphans: seq<nat>, wall: Time)
    requires Inv(w) && ForeignKeys(w.db) && w.history.Keys == w.db.calls.Keys
    requires t <= w.now && IsOrphanList(w.db, orphans, t)
    ensures FinishedKept(w.db.borrowers, TxReap(w.db, orphans, t, wall).borrowers)
  {
    hide Inv, FailAll;
    FailEachKeepsFinished(w, orphans, t, wall);
  }

  lemma RejectKeepsFinished(w: World, c: nat, wall: Time)
    requires Inv(w) && Timely(w, c) && Addressable(w, c)
    ensures FinishedKept(w.db.borrowers, AfterReject(w, c, wall).db.borrowers)
  {
    hide Inv;
    OnlyReservedIsInflight(w, c);
    LiveCallsBorrowerIsOpen(w, c);
  }

  lemma CancelKeepsFinished(w: World, c: nat, wall: Time)
    requires Inv(w) && c in w.db.calls && c in w.history && ForeignKeys(w.db)
    ensures FinishedKept(w.db.borrowers, AfterCancel(w, c, wall).db.borrowers)
  {
    hide Inv;
    if Unanswered(w.db.calls[c]) {
      LiveCallsBorrowerIsOpen(w, c);
    }
  }

  lemma PlaceKeepsFinished(w: World, campaign: nat, pick: Pick, lease: Time, wall: Time)
    requires PickOk(w.db, campaign, pick, wall) && w.dialled.Keys == w.db.borrowers.Keys
    ensures FinishedKept(w.db.borrowers, AfterPlace(w, campaign, pick, lease, wall).db.borrowers)
  {
  }

  lemma QuietStepKeepsFinished(w: World, s: Step)
    requires (Quiet(s) || s.Initiate?) && Shaped(w) && Enabled(w, s)
    ensures FinishedKept(w.db.borrowers, Do(w, s).db.borrowers)
  {
    hide Shaped;
  }

  lemma WorkerStepKeepsFinished(w: World, s: Step)
    requires (s.Place? || s.Reject? || s.Cancel?) && Shaped(w) && Enabled(w, s) && Inv(w)
    ensures FinishedKept(w.db.borrowers, Do(w, s).db.borrowers)
  {
    hide Inv, AfterPlace, AfterReject, AfterCancel, FinishedKept, PickOk;
    match s
    case Place(campaign, pick, lease, wall) => PlaceKeepsFinished(w, campaign, pick, lease, wall);
    case Reject(c, wall) => RejectKeepsFinished(w, c, wall);
    case Cancel(c, wall) => CancelKeepsFinished(w, c, wall);
    case _ =>
  }

  lemma EventStepKeepsFinished(w: World, s: Step)
    requires (s.Deliver? || s.Reap?) && Shaped(w) && Enabled(w, s) && Inv(w)
    ensures FinishedKept(w.db.borrowers, Do(w, s).db.borrowers)
  {
    hide Inv, TxApply, TxReap, WasCommitted, IsOrphanList, FinishedKept;
    match s
    case Deliver(e, c, seen, incoming, wrapup, wall) => DeliverKeepsFinished(w, e, c, seen, incoming, wrapup, wall);
    case Reap(t, orphans, wall) => ReapKeepsFinished(w, t, orphans, wall);
    case _ =>
  }

  lemma StepKeepsFinished(w: World, s: Step)
    requires Shaped(w) && Enabled(w, s) && Inv(w)
    ensures FinishedKept(w.db.borrowers, Do(w, s).db.borrowers)
  {
    hide Inv, Shaped, Enabled, Do, FinishedKept;
    if s.Place? || s.Reject? || s.Cancel? {
      WorkerStepKeepsFinished(w, s);
    } else if s.Deliver? || s.Reap? {
      EventStepKeepsFinished(w, s);
    } else {
      QuietStepKeepsFinished(w, s);
    }
  }

  /** DONE, EXHAUSTED and SUPPRESSED borrowers are never touched again. */
  lemma {:induction false} FinishedBorrowersStayFinished(w: World, steps: seq<Step>)
    requires Inv(w) && CanRun(w, steps)
    ensures FinishedKept(w.db.borrowers, After(w, steps).db.borrowers)
    decreases |steps|
  {
    hide Inv, Shaped, Enabled, Do;
    if steps != [] {
      StepKeepsFinished(w, steps[0]);
      StepKeepsInv(w, steps[0]);
      FinishedBorrowersStayFinished(Do(w, steps[0]), steps[1..]);
    }
  }
}
