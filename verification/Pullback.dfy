/** The free-cancellation sweep, with everything else going on between its transactions. */
module Pullback {
  import opened Domain
  import opened Rows
  import opened Transactions
  import opened World
  import opened Protocol
  import opened Preservation
  import Recovery
  import opened Runs
  import Laws
  import Lifecycle
  import opened Counters
  import Sizes

  /** Call c is not newly INITIATED or RINGING. */
  predicate NoRing(before: map<nat, Call>, after: map<nat, Call>, c: nat) {
    c in after && Unanswered(after[c]) ==>
      c in before && Unanswered(before[c]) && before[c].campaign == after[c].campaign
  }

  lemma DeliverDoesNotRing(w: World, e: nat, d: nat, seen: CallState, incoming: CallState,
                           wrapup: Time, wall: Time, c: nat)
    requires Inv(w) && Laws.Deliverable(w, e, d, seen)
    ensures NoRing(w.db.calls, TxApply(w.db, e, d, seen, incoming, w.now, wrapup, wall).calls, c)
  {
    hide Inv, WasCommitted, TxApply;
    Recovery.CallIsRowOk(w, d);
    Lifecycle.DeliveryOutcome(w, e, d, seen, incoming, wrapup, wall);
  }

  lemma ReapDoesNotRing(w: World, t: Time, orphans: seq<nat>, wall: Time, c: nat)
    requires ForeignKeys(w.db) && IsOrphanList(w.db, orphans, t)
    ensures NoRing(w.db.calls, TxReap(w.db, orphans, t, wall).calls, c)
  {
    hide FailAll;
    Recovery.FailAllCalls(w.db, orphans, wall);
  }

  /** The step's own call leaves INITIATED/RINGING or stays as it was. */
  lemma OwnCallDoesNotRing(w: World, s: Step)
    requires (s.Reject? || s.Cancel?) && Shaped(w) && Enabled(w, s) && Inv(w)
    ensures NoRing(w.db.calls, Do(w, s).db.calls, s.c)
  {
    hide Inv;
    if s.Reject? {
      OnlyReservedIsInflight(w, s.c);
    }
  }

  lemma OwnCallsOnly(w: World, s: Step, c: nat)
    requires (s.Reject? || s.Cancel?) && Shaped(w) && Enabled(w, s)
    ensures c in Do(w, s).db.calls ==> c in w.db.calls
    ensures s.c in w.db.calls
  {
  }

  lemma StepDoesNotRing(w: World, s: Step, c: nat)
    requires !s.Initiate? && Shaped(w) && Enabled(w, s) && Inv(w)
    ensures NoRing(w.db.calls, Do(w, s).db.calls, c)
  {
    hide Inv, Shaped, Enabled, Do, Quiet;
    if s.Place? {
      PlaceAddsACall(w, s, c);
    } else if s.Deliver? {
      DeliveryStepDoesNotRing(w, s, c);
    } else if s.Reap? {
      ReapStepDoesNotRing(w, s, c);
    } else if s.Reject? || s.Cancel? {
      WorkerStepDoesNotRing(w, s, c);
    } else {
      QuietIsTheRest(s);
      QuietStepKeepsCalls(w, s);
    }
  }

  lemma QuietIsTheRest(s: Step)
    requires !s.Place? && !s.Reject? && !s.Initiate? && !s.Deliver? && !s.Cancel? && !s.Reap?
    ensures Quiet(s)
  {
  }

  lemma WorkerStepDoesNotRing(w: World, s: Step, c: nat)
    requires (s.Reject? || s.Cancel?) && Shaped(w) && Enabled(w, s) && Inv(w)
    ensures NoRing(w.db.calls, Do(w, s).db.calls, c)
  {
    hide Inv, Shaped, Enabled, Do;
    OwnCallsOnly(w, s, c);
    if s.c == c {
      OwnCallDoesNotRing(w, s);
    } else if c in w.db.calls {
      WorkerStepKeepsCall(w, s, c);
    }
  }

  lemma DeliveryStepDoesNotRing(w: World, s: Step, c: nat)
    requires s.Deliver? && Shaped(w) && Enabled(w, s) && Inv(w)
    ensures NoRing(w.db.calls, Do(w, s).db.calls, c)
  {
    hide Inv, WasCommitted, NoRing, Do;
    DeliverDoesNotRing(w, s.e, s.c, s.seen, s.incoming, s.wrapup, s.wall, c);
    Lifecycle.DoDeliver(w, s);
  }

  lemma ReapStepDoesNotRing(w: World, s: Step, c: nat)
    requires s.Reap? && Shaped(w) && Enabled(w, s)
    ensures NoRing(w.db.calls, Do(w, s).db.calls, c)
  {
    hide IsOrphanList, NoRing, Do;
    ReapDoesNotRing(w, s.t, s.orphans, s.wall, c);
    Lifecycle.DoReap(w, s);
  }

  lemma CancelSilences(w: World, s: Step)
    requires Shaped(w) && Enabled(w, s) && s.Cancel?
    ensures s.c in Do(w, s).db.calls && !Unanswered(Do(w, s).db.calls[s.c])
  {
  }

  ghost predicate Cancelled(steps: seq<Step>, c: nat) {
    exists i :: 0 <= i < |steps| && steps[i].Cancel? && steps[i].c == c
  }

  ghost predicate NobodyInitiates(steps: seq<Step>) {
    forall i :: 0 <= i < |steps| ==> !steps[i].Initiate?
  }

  /** A run in which no placement completes only ever takes calls out of INITIATED/RINGING, and takes
      out every call it tries to cancel. */
  lemma {:induction false} RunSilences(w: World, steps: seq<Step>, c: nat)
    requires Inv(w) && CanRun(w, steps) && NobodyInitiates(steps)
    ensures NoRing(w.db.calls, After(w, steps).db.calls, c)
    ensures Cancelled(steps, c) && c in After(w, steps).db.calls ==> !Unanswered(After(w, steps).db.calls[c])
    decreases |steps|
  {
    hide Inv, Shaped, Enabled, Do;
    if steps != [] {
      var s, rest := steps[0], steps[1..];
      StepDoesNotRing(w, s, c);
      StepKeepsInv(w, s);
      assert forall i :: 0 <= i < |rest| ==> rest[i] == steps[i + 1];
      RunSilences(Do(w, s), rest, c);
      if s.Cancel? && s.c == c {
        CancelSilences(w, s);
      } else if Cancelled(steps, c) {
        var i :| 0 <= i < |steps| && steps[i].Cancel? && steps[i].c == c;
        assert rest[i - 1] == steps[i];
      }
    }
  }

  /** The candidates the sweep selects: as many ringing calls as exceed the allowance. */
  ghost predicate IsSelection(db: Db, campaign: nat, allowed: int, rows: set<nat>) {
    && rows <= CallsRinging(db.calls, campaign)
    && |rows| == if |CallsRinging(db.calls, campaign)| <= allowed then 0
                 else if allowed < 0 then |CallsRinging(db.calls, campaign)|
                 else |CallsRinging(db.calls, campaign)| - allowed
  }

  /** The sweep under interference: select, then cancel each candidate in a transaction of its own while
      answers, deliveries, other pullbacks, reaps and new reservations interleave at will. If no
      placement completes meanwhile, at most the allowance is left ringing. */
  lemma SweepBoundsRinging(w: World, steps: seq<Step>, campaign: nat, allowed: int, rows: set<nat>)
    requires Inv(w) && CanRun(w, steps) && NobodyInitiates(steps)
    requires IsSelection(w.db, campaign, allowed, rows)
    requires forall r :: r in rows ==> Cancelled(steps, r)
    ensures |CallsRinging(After(w, steps).db.calls, campaign)| <= if allowed < 0 then 0 else allowed
  {
    hide Inv, CanRun, After;
    var before, after := CallsRinging(w.db.calls, campaign), CallsRinging(After(w, steps).db.calls, campaign);
    forall c | c in after ensures c in before - rows {
      RunSilences(w, steps, c);
    }
    Sizes.SubsetSize(after, before - rows);
    assert |before - rows| == |before| - |rows|;
  }

  /** One cancellation, exactly: it takes effect iff nobody has answered; then one agent is freed, one
      attempt is charged, and every other row stays. Otherwise nothing changes at all. */
  lemma CancelIsExact(w: World, c: nat, wall: Time)
    requires Inv(w) && Shaped(w) && c in w.db.calls
    ensures var (k, after) := (w.db.calls[c], TxCancel(w.db, c, wall));
      if !Unanswered(k) then after == w.db
      else
        && k.answeredAt.None? && c in after.calls && after.calls[c].state.Cancelled?
        && k.agent in w.db.agents && k.agent in after.agents
        && !w.db.agents[k.agent].state.Available? && after.agents[k.agent].state.Available?
        && k.borrower in w.db.borrowers && k.borrower in after.borrowers
        && after.borrowers[k.borrower].attempts == w.db.borrowers[k.borrower].attempts + 1
        && (forall d :: d in w.db.calls && d != c ==> d in after.calls && after.calls[d] == w.db.calls[d])
        && (forall a :: a in w.db.agents && a != k.agent ==> a in after.agents && after.agents[a] == w.db.agents[a])
        && (forall b :: b in w.db.borrowers && b != k.borrower ==>
          b in after.borrowers && after.borrowers[b] == w.db.borrowers[b])
  {
    hide Inv;
    if Unanswered(w.db.calls[c]) {
      LiveCallIsAnchored(w, c);
    }
  }
}
