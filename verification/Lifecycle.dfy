/** One call among all the others: which steps move it, and where its events take it. */
module Lifecycle {
  import opened Domain
  import opened Rows
  import opened Transactions
  import opened World
  import opened Protocol
  import opened Preservation
  import Finality
  import Recovery
  import opened Runs
  import Laws

  /** The step addresses call c by itself rather than through a provider event. */
  predicate Interrupts(s: Step, c: nat) {
    (s.Cancel? && s.c == c) || (s.Reap? && c in s.orphans)
  }

  predicate DeliversTo(s: Step, c: nat) { s.Deliver? && s.c == c }

  lemma ReapKeepsOtherCalls(w: World, t: Time, orphans: seq<nat>, wall: Time, c: nat)
    requires ForeignKeys(w.db) && IsOrphanList(w.db, orphans, t) && c in w.db.calls && c !in orphans
    ensures c in TxReap(w.db, orphans, t, wall).calls && TxReap(w.db, orphans, t, wall).calls[c] == w.db.calls[c]
  {
    hide FailAll;
    Recovery.FailAllCalls(w.db, orphans, wall);
  }

  /** The state one event leaves a committed call in. */
  function NextState(state: CallState, incoming: CallState): CallState {
    if incoming !in LegalNext(state) then state
    else if incoming.Answered? then CallState.Connected
    else incoming
  }

  /** Delivery, seen from the calls table: only call c moves, and only as `NextState` says. */
  lemma DeliveryOutcome(w: World, e: nat, c: nat, seen: CallState, incoming: CallState, wrapup: Time, wall: Time)
    requires Inv(w) && Laws.Deliverable(w, e, c, seen)
    ensures var after := TxApply(w.db, e, c, seen, incoming, w.now, wrapup, wall);
      && c in after.calls && after.calls == w.db.calls[c := after.calls[c]]
      && after.calls[c].state == NextState(w.db.calls[c].state, incoming)
      && after.calls[c].campaign == w.db.calls[c].campaign
  {
    hide Inv, WasCommitted, ForeignKeys, RowsFollow;
    DeliverMovesIffLegal(w, c, seen, incoming);
    if incoming in LegalNext(w.db.calls[c].state) {
      LiveCallIsAnchored(w, c);
      TransitionRowsFollow(w, c, incoming, wrapup, wall);
      TransitionKeepsCampaign(w, c, incoming, wrapup, wall);
      hide Anchored, Transition, LegalNext, Advance, CanApply;
      AppliedIsTransition(w.db, e, c, seen, incoming, w.now, wrapup, wall);
    } else {
      hide LegalNext, CanApply, Transition;
      SkippedIsMark(w.db, e, c, seen, incoming, w.now, wrapup, wall);
    }
  }

  lemma TransitionKeepsCampaign(w: World, c: nat, incoming: CallState, wrapup: Time, wall: Time)
    requires Anchored(w, c) && ForeignKeys(w.db) && w.db.calls[c].rank < Rank(incoming)
    ensures var row := Advance(w.db.calls[c], incoming, w.db.calls[c].pcid, None, None, wall).value;
      var db := Transition(w.db, c, row, incoming, w.now, wrapup, wall);
      c in db.calls && db.calls[c].campaign == w.db.calls[c].campaign
  {
  }

  lemma UninvolvedStepKeepsCall(w: World, s: Step, c: nat)
    requires Shaped(w) && Enabled(w, s) && c in w.db.calls && (Quiet(s) || s.Place?)
    ensures c in Do(w, s).db.calls && Do(w, s).db.calls[c] == w.db.calls[c]
  {
    hide Shaped, Enabled, Do, Quiet;
    if s.Place? {
      PlaceAddsACall(w, s, c);
    } else {
      QuietStepKeepsCalls(w, s);
    }
  }

  /** A dialled call is moved by its own events, a pullback or the reaper, and by nothing else. */
  lemma OtherStepsKeepCall(w: World, s: Step, c: nat)
    requires c in w.db.calls && 2 <= Rank(w.db.calls[c].state) && !Interrupts(s, c) && !DeliversTo(s, c)
    requires Inv(w) && Shaped(w) && Enabled(w, s)
    ensures c in Do(w, s).db.calls && Do(w, s).db.calls[c] == w.db.calls[c]
  {
    hide Inv, Shaped, Do;
    match s
    case Reject(d, _) =>
      OnlyReservedIsInflight(w, d);
      WorkerStepKeepsCall(w, s, c);
    case Initiate(d, _, _, _) =>
      OnlyReservedIsInflight(w, d);
      WorkerStepKeepsCall(w, s, c);
    case Cancel(_, _) => WorkerStepKeepsCall(w, s, c);
    case Deliver(e, d, seen, incoming, wrapup, wall) => OtherDeliveryKeepsCall(w, s, c);
    case Reap(t, orphans, wall) => OtherReapKeepsCall(w, s, c);
    case _ => UninvolvedStepKeepsCall(w, s, c);
  }

  lemma OtherDeliveryKeepsCall(w: World, s: Step, c: nat)
    requires c in w.db.calls && s.Deliver? && s.c != c
    requires Inv(w) && Shaped(w) && Enabled(w, s)
    ensures c in Do(w, s).db.calls && Do(w, s).db.calls[c] == w.db.calls[c]
  {
    hide Inv, Shaped, Do, WasCommitted;
    ShapedForeignKeys(w);
    DeliveryOutcome(w, s.e, s.c, s.seen, s.incoming, s.wrapup, s.wall);
    DoDeliver(w, s);
  }

  lemma OtherReapKeepsCall(w: World, s: Step, c: nat)
    requires c in w.db.calls && s.Reap? && c !in s.orphans
    requires Shaped(w) && Enabled(w, s)
    ensures c in Do(w, s).db.calls && Do(w, s).db.calls[c] == w.db.calls[c]
  {
    hide Shaped, Do;
    ShapedForeignKeys(w);
    ReapKeepsOtherCalls(w, s.t, s.orphans, s.wall, c);
    DoReap(w, s);
  }

  /** The provider reports this call ringing or answered any number of times, and ending in `end`. */
  ghost predicate ReportsOnly(steps: seq<Step>, c: nat, end: CallState) {
    forall i :: 0 <= i < |steps| && DeliversTo(steps[i], c) ==>
      steps[i].incoming.Ringing? || steps[i].incoming.Answered? || steps[i].incoming == end
  }

  ghost predicate ReportsEnd(steps: seq<Step>, c: nat, end: CallState) {
    exists i :: 0 <= i < |steps| && DeliversTo(steps[i], c) && steps[i].incoming == end
  }

  /** The call has been dialled and is still going, or it is where it should end. */
  predicate OnItsWay(calls: map<nat, Call>, c: nat, end: CallState) {
    c in calls && (2 <= Rank(calls[c].state) < TERMINAL_RANK || calls[c].state == end)
  }

  predicate AtItsEnd(calls: map<nat, Call>, c: nat, end: CallState) { c in calls && calls[c].state == end }

  lemma StepTowardsEnd(w: World, s: Step, c: nat, end: CallState)
    requires OnItsWay(w.db.calls, c, end) && Terminal(end) && !Interrupts(s, c)
    requires DeliversTo(s, c) ==> s.incoming.Ringing? || s.incoming.Answered? || s.incoming == end
    requires Shaped(w) && Enabled(w, s) && Inv(w)
    ensures OnItsWay(Do(w, s).db.calls, c, end)
    ensures AtItsEnd(w.db.calls, c, end) || (DeliversTo(s, c) && s.incoming == end) ==>
      AtItsEnd(Do(w, s).db.calls, c, end)
  {
    hide Inv, Shaped, Do, Enabled;
    CallIsCommitted(w, c);
    if DeliversTo(s, c) {
      DeliveryStepOutcome(w, s);
    } else {
      OtherStepsKeepCall(w, s, c);
    }
  }

  lemma DeliveryStepOutcome(w: World, s: Step)
    requires s.Deliver? && s.c in w.db.calls && Shaped(w) && Enabled(w, s) && Inv(w)
    ensures s.c in Do(w, s).db.calls
    ensures Do(w, s).db.calls[s.c].state == NextState(w.db.calls[s.c].state, s.incoming)
  {
    hide Inv, Shaped, Do, WasCommitted;
    ShapedForeignKeys(w);
    DeliveryOutcome(w, s.e, s.c, s.seen, s.incoming, s.wrapup, s.wall);
    DoDeliver(w, s);
    hide Enabled, TxApply;
  }

  lemma ShapedForeignKeys(w: World)
    requires Shaped(w)
    ensures ForeignKeys(w.db)
  {
  }

  lemma DoReap(w: World, s: Step)
    requires Shaped(w) && Enabled(w, s) && s.Reap?
    ensures Do(w, s).db == TxReap(w.db, s.orphans, s.t, s.wall)
  {
  }

  lemma DoDeliver(w: World, s: Step)
    requires Shaped(w) && Enabled(w, s) && s.Deliver?
    ensures Do(w, s).db == TxApply(w.db, s.e, s.c, s.seen, s.incoming, w.now, s.wrapup, s.wall)
  {
  }

  // ---- calls that are taken away

  /** A pullback or the reaper ended the call. */
  predicate Taken(w: World, c: nat) {
    c in w.history && (EndedByPullback(w.history[c]) || EndedByReaper(w.history[c]))
  }

  /** A cancellation ends the call's history or, the call having been answered or ended, changes nothing. */
  lemma CancelTakesOrDoesNothing(w: World, s: Step)
    requires s.Cancel? && Shaped(w) && Enabled(w, s)
    ensures s.c in w.db.calls && if Unanswered(w.db.calls[s.c]) then Taken(Do(w, s), s.c) else Do(w, s).db == w.db
  {
  }

  lemma FailEndsHistory(w: World, o: nat, wall: Time, c: nat)
    requires o in w.db.calls && o in w.history && ForeignKeys(w.db) && c in w.history
    ensures c in AfterFail(w, o, wall).history
    ensures var h := AfterFail(w, o, wall).history[c]; if c == o then EndedByReaper(h) else h == w.history[c]
  {
    hide FailOne;
  }

  lemma {:induction false} FailEachEndsHistories(w: World, orphans: seq<nat>, wall: Time, c: nat)
    requires ForeignKeys(w.db) && w.history.Keys == w.db.calls.Keys && c in orphans
    requires forall o :: o in orphans ==> o in w.db.calls
    ensures c in FailEach(w, orphans, wall).history && EndedByReaper(FailEach(w, orphans, wall).history[c])
  {
    hide FailOne, FailAll, EndedByReaper, AfterFail;
    var front, o := orphans[..|orphans| - 1], orphans[|orphans| - 1];
    assert orphans == front + [o];
    if c != o {
      FailEachEndsHistories(w, front, wall, c);
    }
    FailEndsHistory(FailEach(w, front, wall), o, wall, c);
  }

  lemma ReapTakes(w: World, s: Step, c: nat)
    requires s.Reap? && c in s.orphans && Shaped(w) && Enabled(w, s)
    ensures Taken(Do(w, s), c)
  {
    FailEachEndsHistories(w, s.orphans, s.wall, c);
    hide FailEach, TxReap, EndedByReaper, EndedByPullback;
  }

  lemma TakenStaysTaken(w: World, s: Step, c: nat)
    requires Taken(w, c) && Shaped(w) && Enabled(w, s) && Inv(w)
    ensures Taken(Do(w, s), c)
  {
    hide Inv, Shaped, Enabled, Do;
    HistoryKnown(w);
    CallHistory(w, c);
    Finality.TerminalHistoryStays(w, s, c);
  }

  lemma StepOfFate(w: World, s: Step, c: nat, end: CallState)
    requires (OnItsWay(w.db.calls, c, end) || Taken(w, c)) && Terminal(end)
    requires DeliversTo(s, c) ==> s.incoming.Ringing? || s.incoming.Answered? || s.incoming == end
    requires Shaped(w) && Enabled(w, s) && Inv(w)
    ensures OnItsWay(Do(w, s).db.calls, c, end) || Taken(Do(w, s), c)
    ensures AtItsEnd(w.db.calls, c, end) || Taken(w, c) || (DeliversTo(s, c) && s.incoming == end) ==>
      AtItsEnd(Do(w, s).db.calls, c, end) || Taken(Do(w, s), c)
  {
    hide Inv, Shaped, Enabled, Do, Taken;
    if Taken(w, c) {
      TakenStaysTaken(w, s, c);
    } else if s.Cancel? && s.c == c {
      CancelTakesOrDoesNothing(w, s);
    } else if s.Reap? && c in s.orphans {
      ReapTakes(w, s, c);
    } else {
      StepTowardsEnd(w, s, c, end);
    }
  }

  /** End to end: whatever order a dialled call's events are applied in, however often each is repeated,
      however old the appliers' reads and whatever else happens meanwhile, the call stays on its way to
      the end its events report, and once the terminal event has been applied it is there; unless a
      pullback or the reaper ended it first. A pullback that finds it answered makes no difference. */
  lemma {:induction false} LifecycleReachesItsEnd(w: World, steps: seq<Step>, c: nat, end: CallState)
    requires Inv(w) && CanRun(w, steps) && (OnItsWay(w.db.calls, c, end) || Taken(w, c)) && Terminal(end)
    requires ReportsOnly(steps, c, end)
    ensures OnItsWay(After(w, steps).db.calls, c, end) || Taken(After(w, steps), c)
    ensures AtItsEnd(w.db.calls, c, end) || Taken(w, c) || ReportsEnd(steps, c, end) ==>
      AtItsEnd(After(w, steps).db.calls, c, end) || Taken(After(w, steps), c)
    decreases |steps|
  {
    hide Inv, Shaped, Enabled, Do, Taken;
    if steps != [] {
      var s, rest := steps[0], steps[1..];
      StepOfFate(w, s, c, end);
      StepKeepsInv(w, s);
      assert forall i :: 0 <= i < |rest| ==> rest[i] == steps[i + 1];
      LifecycleReachesItsEnd(Do(w, s), rest, c, end);
      if ReportsEnd(steps, c, end) {
        var i :| 0 <= i < |steps| && DeliversTo(steps[i], c) && steps[i].incoming == end;
        assert i > 0 ==> rest[i - 1] == steps[i];
      }
    }
  }
}
