/** The time columns and the failure reason of a call: they tell its history, and are never rewritten. */
module Stamps {
  import opened Domain
  import opened Rows
  import opened Transactions
  import opened World
  import opened Protocol
  import opened Preservation
  import opened Runs
  import Accounting
  import Counters
  import Effects
  import Lifecycle
  import Recovery
  import Sweeps

  /** Why a call failed, by its last write: events give no reason. */
  function ReasonOf(last: Entry): Option<string> {
    match last.cause
    case ByWorker => if last.state.Failed? then Some("PROVIDER_REJECTED") else None
    case ByPullback => Some("SAFETY_PULLBACK")
    case ByReaper => Some("LEASE_EXPIRED_NO_EVENTS")
    case ByEvent(_) => None
  }

  predicate Had(h: seq<Entry>, state: CallState) { exists i :: 0 <= i < |h| && h[i].state == state }

  /** A time column is set exactly if the call has been in its state; an answer connects at once. */
  predicate Stamped(k: Call, h: seq<Entry>) {
    && h != []
    && (k.initiatedAt.Some? <==> Had(h, CallState.Initiated)) && (k.ringingAt.Some? <==> Had(h, CallState.Ringing))
    && (k.answeredAt.Some? <==> Had(h, CallState.Answered)) && (k.connectedAt.Some? <==> Had(h, CallState.Connected))
    && k.connectedAt == k.answeredAt && (k.terminalAt.Some? <==> Terminal(h[|h| - 1].state))
    && k.failure == ReasonOf(h[|h| - 1])
  }

  ghost predicate AllStamped(w: World) {
    forall c :: c in w.db.calls ==> c in w.history && Stamped(w.db.calls[c], w.history[c])
  }

  // ---- every way a step writes a call

  predicate WritesDial(k: Call, l: Call, more: seq<Entry>) {
    && more == [Entry(CallState.Initiated, ByWorker)] && l.initiatedAt.Some? && k.initiatedAt.None?
    && l == k.(state := CallState.Initiated, rank := 2, pcid := l.pcid, initiatedAt := l.initiatedAt, lease := l.lease)
  }

  predicate WritesRing(k: Call, l: Call, more: seq<Entry>) {
    && |more| == 1 && more[0].state.Ringing? && more[0].cause.ByEvent? && l.ringingAt.Some? && k.ringingAt.None?
    && l == k.(state := CallState.Ringing, rank := 3, ringingAt := l.ringingAt, lease := None)
  }

  predicate WritesAnswer(k: Call, l: Call, more: seq<Entry>) {
    && |more| == 2 && more[0].state.Answered? && more[1].state.Connected? && more[1].cause.ByEvent?
    && l.answeredAt.Some? && k.answeredAt.None? && k.connectedAt.None?
    && l == k.(state := CallState.Connected, rank := 5, answeredAt := l.answeredAt, connectedAt := l.answeredAt,
               lease := None)
  }

  predicate WritesEnd(k: Call, l: Call, more: seq<Entry>) {
    && |more| == 1 && Terminal(more[0].state) && l.terminalAt.Some?
    && l == k.(state := more[0].state, rank := 6, terminalAt := l.terminalAt, lease := l.lease,
               failure := ReasonOf(more[0]))
  }

  predicate Written(k: Call, l: Call, more: seq<Entry>) {
    || (more == [] && l == k)
    || (k.failure.None? && k.terminalAt.None? &&
      (WritesDial(k, l, more) || WritesRing(k, l, more) || WritesAnswer(k, l, more) || WritesEnd(k, l, more)))
  }

  /** From one row and history of a call to the next. */
  predicate Grows(k: Call, h: seq<Entry>, l: Call, g: seq<Entry>) {
    h <= g && Written(k, l, g[|h|..])
  }

  predicate HasGrown(v: World, w: World, c: nat) {
    && c in v.db.calls && c in v.history && c in w.db.calls && c in w.history
    && Grows(v.db.calls[c], v.history[c], w.db.calls[c], w.history[c])
  }

  lemma GrownBy(k: Call, h: seq<Entry>, l: Call, more: seq<Entry>)
    requires Written(k, l, more)
    ensures Grows(k, h, l, h + more)
  {
    assert (h + more)[|h|..] == more;
  }

  lemma UnwrittenHasGrown(v: World, w: World, c: nat)
    requires c in v.db.calls && c in v.history && c in w.db.calls && c in w.history
    requires w.db.calls[c] == v.db.calls[c] && w.history[c] == v.history[c]
    ensures HasGrown(v, w, c)
  {
    assert v.history[c] + [] == v.history[c];
    GrownBy(v.db.calls[c], v.history[c], w.db.calls[c], []);
  }

  lemma LiveHasNoReason(w: World, c: nat)
    requires Inv(w) && c in w.db.calls && Live(w.db.calls[c])
    ensures w.db.calls[c].failure.None? && w.db.calls[c].terminalAt.None?
  {
    hide Inv;
    Recovery.CallIsRowOk(w, c);
  }

  lemma RejectGrows(w: World, s: Step)
    requires s.Reject? && Inv(w) && Shaped(w) && Enabled(w, s)
    ensures HasGrown(w, Do(w, s), s.c)
  {
    hide Inv, Shaped, Timely, TxReject, CallRowOk, ForeignKeys, Grows;
    Effects.TimelyIsReserved(w, s.c);
    Effects.RejectionEnds(w, s.c, s.wall);
    LiveHasNoReason(w, s.c);
    GrownBy(w.db.calls[s.c], w.history[s.c], Do(w, s).db.calls[s.c], Entries([CallState.Failed], ByWorker));
  }

  lemma InitiateGrows(w: World, s: Step)
    requires s.Initiate? && Inv(w) && Shaped(w) && Enabled(w, s)
    ensures HasGrown(w, Do(w, s), s.c)
  {
    hide Inv, Shaped, Timely, TxInitiate, ForeignKeys, Grows;
    Effects.TimelyIsReserved(w, s.c);
    Effects.InitiationDials(w, s.c, s.pcid, s.dialLease, s.wall);
    LiveHasNoReason(w, s.c);
    if RefTaken(w.db, s.c, w.db.calls[s.c].provider, s.pcid) {
      UnwrittenHasGrown(w, Do(w, s), s.c);
    } else {
      GrownBy(w.db.calls[s.c], w.history[s.c], Do(w, s).db.calls[s.c], Entries([CallState.Initiated], ByWorker));
    }
  }

  lemma CancelGrows(w: World, s: Step)
    requires s.Cancel? && Inv(w) && Shaped(w) && Enabled(w, s)
    ensures HasGrown(w, Do(w, s), s.c)
  {
    hide Inv, Shaped, TxCancel, Grows;
    Lifecycle.ShapedForeignKeys(w);
    hide ForeignKeys;
    HistoryKnown(w);
    Effects.CancellationEnds(w, s.c, s.wall);
    if Unanswered(w.db.calls[s.c]) {
      LiveHasNoReason(w, s.c);
      GrownBy(w.db.calls[s.c], w.history[s.c], Do(w, s).db.calls[s.c], Entries([CallState.Cancelled], ByPullback));
    } else {
      NoMove(w, TxCancel(w.db, s.c, s.wall), s.c, ByPullback);
      UnwrittenHasGrown(w, Do(w, s), s.c);
    }
  }

  /** The values an event writes to the call's state. */
  lemma WhatAnEventWrites(w: World, s: Step)
    requires s.Deliver? && Inv(w) && Shaped(w) && Enabled(w, s)
    ensures var (k, states) := (w.db.calls[s.c], Writes(w.db, s.c, s.seen, s.incoming));
      if Effects.ComesTooLate(k, s.incoming) then states == []
      else
        && Live(k)
        && states == if s.incoming.Answered? then [CallState.Answered, CallState.Connected] else [s.incoming]
  {
    hide Inv, Shaped, WasCommitted, CanApply, SeenOf;
    var k := w.db.calls[s.c];
    Effects.CommittedIsDialled(w, s.c, s.seen);
    Effects.GuardsStopLateEvents(k, s.seen, s.incoming);
    if !Effects.ComesTooLate(k, s.incoming) {
      Effects.LiveCallIsAnchoredIfMoved(w, s.c, s.incoming);
    }
  }

  lemma DeliverGrows(w: World, s: Step)
    requires s.Deliver? && Inv(w) && Shaped(w) && Enabled(w, s)
    ensures HasGrown(w, Do(w, s), s.c)
  {
    hide Inv, Shaped, WasCommitted, Grows, TxApply, Writes, Effects.ComesTooLate, Effects.Settles;
    Lifecycle.ShapedForeignKeys(w);
    hide ForeignKeys;
    WhatAnEventWrites(w, s);
    Effects.DeliverySettles(w, s.e, s.c, s.seen, s.incoming, s.wrapup, s.wall);
    var states := Writes(w.db, s.c, s.seen, s.incoming);
    if Effects.ComesTooLate(w.db.calls[s.c], s.incoming) {
      NoMove(w, Do(w, s).db, s.c, ByEvent(s.e));
      UnwrittenHasGrown(w, Do(w, s), s.c);
    } else {
      LiveHasNoReason(w, s.c);
      GrownBy(w.db.calls[s.c], w.history[s.c], Do(w, s).db.calls[s.c], Entries(states, ByEvent(s.e)));
    }
  }

  lemma FailHistory(w: World, o: nat, wall: Time, c: nat)
    requires o in w.db.calls && o in w.history && ForeignKeys(w.db) && c in w.history
    ensures var h := AfterFail(w, o, wall).history;
      c in h && h[c] == if c == o then w.history[c] + [Entry(CallState.Failed, ByReaper)] else w.history[c]
  {
    hide FailOne;
    assert Entries([CallState.Failed], ByReaper) == [Entry(CallState.Failed, ByReaper)];
  }

  lemma {:induction false} FailEachHistory(w: World, orphans: seq<nat>, wall: Time, c: nat)
    requires ForeignKeys(w.db) && w.history.Keys == w.db.calls.Keys && Distinct(orphans) && c in w.db.calls
    requires forall o :: o in orphans ==> o in w.db.calls
    ensures var h := FailEach(w, orphans, wall).history;
      c in h && h[c] == if c in orphans then w.history[c] + [Entry(CallState.Failed, ByReaper)] else w.history[c]
  {
    hide FailOne, FailAll, AfterFail, ForeignKeys;
    if orphans != [] {
      var front, o := orphans[..|orphans| - 1], orphans[|orphans| - 1];
      assert orphans == front + [o] && o !in front;
      FailEachHistory(w, front, wall, c);
      FailHistory(FailEach(w, front, wall), o, wall, c);
    }
  }

  lemma ReapGrows(w: World, s: Step, c: nat)
    requires s.Reap? && c in w.db.calls && Inv(w) && Shaped(w) && Enabled(w, s)
    ensures HasGrown(w, Do(w, s), c)
  {
    hide Inv, Grows, FailEach, TxReap, IsOrphan, ForeignKeys, Effects.AgentReaped, Effects.BorrowerReaped;
    FailEachHistory(w, s.orphans, s.wall, c);
    Effects.ReapSettles(w, s.t, s.orphans, s.wall);
    Effects.OrphanIffExpired(w, s.t, c);
    hide Effects.Expired;
    if IsOrphan(w.db.calls[c], s.t) {
      LiveHasNoReason(w, c);
      GrownBy(w.db.calls[c], w.history[c], Do(w, s).db.calls[c], [Entry(CallState.Failed, ByReaper)]);
    } else {
      UnwrittenHasGrown(w, Do(w, s), c);
    }
  }

  lemma WorkerStepKeepsHistory(w: World, s: Step, c: nat)
    requires (s.Reject? || s.Initiate? || s.Cancel?) && c != s.c && c in w.history && Shaped(w) && Enabled(w, s)
    ensures c in Do(w, s).history && Do(w, s).history[c] == w.history[c]
  {
    WorkerStepAddresses(w, s);
    hide TxReject, TxInitiate, TxCancel, RefTaken, Shaped, Enabled, ForeignKeys, Entries;
  }

  lemma DeliveryKeepsHistory(w: World, s: Step, c: nat)
    requires s.Deliver? && c != s.c && c in w.history && Shaped(w) && Enabled(w, s)
    ensures c in Do(w, s).history && Do(w, s).history[c] == w.history[c]
  {
    hide TxApply, WasCommitted, Writes;
  }

  /** Whatever the step, a call row is written in one of these ways or not at all. */
  lemma StepGrows(w: World, s: Step, c: nat)
    requires c in w.db.calls && Inv(w) && Shaped(w) && Enabled(w, s)
    ensures HasGrown(w, Do(w, s), c)
  {
    hide Inv, Shaped, Enabled, Do, Grows;
    HistoryKnown(w);
    match s
    case Reject(d, _) =>
      if c == d { RejectGrows(w, s); } else { OtherCallStays(w, s, c); }
    case Initiate(d, _, _, _) =>
      if c == d { InitiateGrows(w, s); } else { OtherCallStays(w, s, c); }
    case Cancel(d, _) =>
      if c == d { CancelGrows(w, s); } else { OtherCallStays(w, s, c); }
    case Deliver(_, d, _, _, _, _) =>
      if c == d { DeliverGrows(w, s); } else { OtherCallStays(w, s, c); }
    case Reap(_, _, _) => ReapGrows(w, s, c);
    case _ =>
      Lifecycle.UninvolvedStepKeepsCall(w, s, c);
      if s.Place? {
        Accounting.PlaceKeepsOtherHistory(w, s, c);
      } else {
        Accounting.QuietStepKeepsHistory(w, s, c);
      }
      UnwrittenHasGrown(w, Do(w, s), c);
  }

  lemma OtherCallStays(w: World, s: Step, c: nat)
    requires (s.Reject? || s.Initiate? || s.Cancel? || s.Deliver?) && c != s.c && c in w.db.calls && c in w.history
    requires Inv(w) && Shaped(w) && Enabled(w, s)
    ensures HasGrown(w, Do(w, s), c)
  {
    hide Inv, Shaped, Enabled, Do, Grows;
    if s.Deliver? {
      Lifecycle.OtherDeliveryKeepsCall(w, s, c);
      DeliveryKeepsHistory(w, s, c);
    } else {
      WorkerStepKeepsCall(w, s, c);
      WorkerStepKeepsHistory(w, s, c);
    }
    UnwrittenHasGrown(w, Do(w, s), c);
  }

  // ---- what the columns say

  lemma HadMore(h: seq<Entry>, more: seq<Entry>, state: CallState)
    ensures Had(h + more, state) <==> Had(h, state) || Had(more, state)
  {
    var g := h + more;
    if i :| 0 <= i < |h| && h[i].state == state {
      assert g[i].state == state;
    }
    if i :| 0 <= i < |more| && more[i].state == state {
      assert g[|h| + i].state == state;
    }
  }

  lemma WrittenStaysStamped(k: Call, h: seq<Entry>, l: Call, g: seq<Entry>)
    requires Stamped(k, h) && Grows(k, h, l, g)
    ensures Stamped(l, g)
  {
    var more := g[|h|..];
    assert g == h + more;
    HadMore(h, more, CallState.Initiated);
    HadMore(h, more, CallState.Ringing);
    HadMore(h, more, CallState.Answered);
    HadMore(h, more, CallState.Connected);
    if more != [] {
      assert g[|g| - 1] == more[|more| - 1];
    }
    hide Had;
    WhatWasHad(more);
  }

  lemma WhatWasHad(more: seq<Entry>)
    ensures |more| == 1 ==> forall x :: Had(more, x) <==> x == more[0].state
    ensures |more| == 2 ==> forall x :: Had(more, x) <==> x == more[0].state || x == more[1].state
    ensures more == [] ==> forall x :: !Had(more, x)
  {
    if |more| == 1 {
      assert more[0] == more[0];
    }
    if |more| == 2 {
      assert forall x :: x == more[0].state || x == more[1].state ==> Had(more, x);
    }
  }

  lemma DeliveryAddsNoCall(w: World, s: Step)
    requires s.Deliver? && Inv(w) && Shaped(w) && Enabled(w, s)
    ensures Do(w, s).db.calls.Keys == w.db.calls.Keys
  {
    hide Inv, Shaped, Do, WasCommitted, TxApply;
    Lifecycle.ShapedForeignKeys(w);
    Lifecycle.DeliveryOutcome(w, s.e, s.c, s.seen, s.incoming, s.wrapup, s.wall);
    Lifecycle.DoDeliver(w, s);
  }

  lemma ReapAddsNoCall(w: World, s: Step)
    requires s.Reap? && Shaped(w) && Enabled(w, s)
    ensures Do(w, s).db.calls.Keys == w.db.calls.Keys
  {
    hide Shaped, Do, IsOrphanList, FailAll;
    Lifecycle.ShapedForeignKeys(w);
    Lifecycle.DoReap(w, s);
  }

  lemma WorkerAddsNoCall(w: World, s: Step)
    requires (s.Reject? || s.Initiate? || s.Cancel?) && Inv(w) && Shaped(w) && Enabled(w, s)
    ensures Do(w, s).db.calls.Keys == w.db.calls.Keys
  {
    hide Inv, Shaped, TxReject, TxInitiate, TxCancel, Effects.LetGo, Effects.Charged, CallRowOk;
    match s
    case Reject(c, wall) => Effects.RejectionEnds(w, c, wall);
    case Initiate(c, pcid, dialLease, wall) => Effects.InitiationDials(w, c, pcid, dialLease, wall);
    case Cancel(c, wall) => Effects.CancellationEnds(w, c, wall);
    case _ =>
  }

  lemma OnlyPlacementsAddCalls(w: World, s: Step, c: nat)
    requires !s.Place? && Inv(w) && Shaped(w) && Enabled(w, s)
    ensures c in Do(w, s).db.calls ==> c in w.db.calls
  {
    hide Inv, Shaped, Enabled, Do;
    if Quiet(s) {
      QuietStepKeepsCalls(w, s);
    } else if s.Deliver? {
      DeliveryAddsNoCall(w, s);
    } else if s.Reap? {
      ReapAddsNoCall(w, s);
    } else {
      WorkerAddsNoCall(w, s);
    }
  }

  lemma NewCallIsStamped(w: World, s: Step, c: nat)
    requires s.Place? && c !in w.db.calls && Shaped(w) && Enabled(w, s) && c in Do(w, s).db.calls
    ensures c in Do(w, s).history && Stamped(Do(w, s).db.calls[c], Do(w, s).history[c])
  {
    hide KeyTaken, Shaped;
  }

  lemma StepKeepsStamped(w: World, s: Step)
    requires AllStamped(w) && Inv(w) && Shaped(w) && Enabled(w, s)
    ensures AllStamped(Do(w, s))
  {
    hide Inv, Shaped, Enabled, Do, Stamped, Grows;
    var v := Do(w, s);
    forall c | c in v.db.calls ensures c in v.history && Stamped(v.db.calls[c], v.history[c]) {
      if c in w.db.calls {
        StepGrows(w, s, c);
        WrittenStaysStamped(w.db.calls[c], w.history[c], v.db.calls[c], v.history[c]);
      } else {
        if !s.Place? {
          OnlyPlacementsAddCalls(w, s, c);
        }
        NewCallIsStamped(w, s, c);
      }
    }
  }

  lemma {:induction false} RunKeepsStamped(w: World, steps: seq<Step>)
    requires AllStamped(w) && Inv(w) && CanRun(w, steps)
    ensures AllStamped(After(w, steps))
    decreases |steps|
  {
    hide Inv, Shaped, Enabled, Do, AllStamped;
    if steps != [] {
      StepKeepsStamped(w, steps[0]);
      StepKeepsInv(w, steps[0]);
      RunKeepsStamped(Do(w, steps[0]), steps[1..]);
    }
  }

  /** In every reachable state a call's time columns say which states it has been in, and its failure
      reason who ended it. */
  lemma StampsTellTheHistory(w: World, c: nat)
    requires Reachable(w) && c in w.db.calls
    ensures c in w.history && Stamped(w.db.calls[c], w.history[c])
  {
    hide CanRun, After, Inv, Stamped;
    var steps :| CanRun(EMPTY, steps) && After(EMPTY, steps) == w;
    EmptyHasInv();
    RunKeepsStamped(EMPTY, steps);
  }

  predicate KeptOnce<T(==)>(before: Option<T>, after: Option<T>) { before.Some? ==> after == before }

  predicate StampsKept(k: Call, l: Call) {
    && KeptOnce(k.initiatedAt, l.initiatedAt) && KeptOnce(k.ringingAt, l.ringingAt)
    && KeptOnce(k.answeredAt, l.answeredAt) && KeptOnce(k.connectedAt, l.connectedAt)
    && KeptOnce(k.terminalAt, l.terminalAt) && KeptOnce(k.failure, l.failure)
  }

  /** No time and no reason, once written, is ever written again, over any run. */
  lemma {:induction false} StampsAreFinal(w: World, steps: seq<Step>, c: nat)
    requires Inv(w) && CanRun(w, steps) && c in w.db.calls
    ensures c in After(w, steps).db.calls && StampsKept(w.db.calls[c], After(w, steps).db.calls[c])
    decreases |steps|
  {
    hide Inv, Shaped, Enabled, Do, Grows;
    if steps != [] {
      var v := Do(w, steps[0]);
      StepGrows(w, steps[0], c);
      GrownKeepsStamps(w.db.calls[c], w.history[c], v.db.calls[c], v.history[c]);
      StepKeepsInv(w, steps[0]);
      StampsAreFinal(v, steps[1..], c);
    }
  }

  lemma GrownKeepsStamps(k: Call, h: seq<Entry>, l: Call, g: seq<Entry>)
    requires Grows(k, h, l, g)
    ensures StampsKept(k, l)
  {
  }

  // ---- oldest first

  lemma RingingWasInitiated(w: World, c: nat)
    requires Reachable(w) && c in w.db.calls && Unanswered(w.db.calls[c])
    ensures w.db.calls[c].initiatedAt.Some?
  {
    hide Reachable, Inv;
    StampsTellTheHistory(w, c);
    ReachableHasInv(w);
    CallHistory(w, c);
    var h := w.history[c];
    if h[|h| - 1].state.Ringing? {
      assert h[|h| - 1].state in LegalNext(h[|h| - 2].state);
      assert h[|h| - 2].state.Initiated?;
    }
  }

  /** The calls a sweep selects were dialled no later than any it leaves ringing. */
  lemma OldestAreSelected(w: World, campaign: nat, rows: seq<nat>, r: nat, c: nat)
    requires Reachable(w) && r in rows && r in Counters.CallsRinging(w.db.calls, campaign)
    requires c in Counters.CallsRinging(w.db.calls, campaign) && c !in rows
    requires Sweeps.OldestFirst(w.db.calls, rows, campaign)
    ensures var (k, l) := (w.db.calls[r], w.db.calls[c]);
      k.initiatedAt.Some? && l.initiatedAt.Some? && k.initiatedAt.value <= l.initiatedAt.value
  {
    hide Reachable;
    RingingWasInitiated(w, r);
    RingingWasInitiated(w, c);
  }
}
