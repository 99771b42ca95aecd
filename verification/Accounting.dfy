/** What a pullback sweep adds up to, over any run it is interleaved with. */
module Accounting {
  import opened Domain
  import opened Rows
  import opened Transactions
  import opened World
  import opened Protocol
  import opened Runs
  import Counters
  import EndToEnd
  import Finality
  import Lifecycle
  import Preservation
  import Pullback

  // ---- the attempts of all borrowers

  ghost function TotalAttempts(m: map<nat, Borrower>): nat
    decreases |m|
  {
    if m == map[] then 0
    else
      var b :| b in m;
      m[b].attempts + TotalAttempts(m - {b})
  }

  lemma {:induction false} TotalAttemptsSplits(m: map<nat, Borrower>, b: nat)
    requires b in m
    ensures TotalAttempts(m) == m[b].attempts + TotalAttempts(m - {b})
    decreases |m|
  {
    var c :| c in m && TotalAttempts(m) == m[c].attempts + TotalAttempts(m - {c});
    if c != b {
      TotalAttemptsSplits(m - {c}, b);
      TotalAttemptsSplits(m - {b}, c);
      assert m - {c} - {b} == m - {b} - {c};
    }
  }

  lemma TotalAttemptsAfter(m: map<nat, Borrower>, b: nat, row: Borrower)
    requires b in m
    ensures TotalAttempts(m[b := row]) == TotalAttempts(m) - m[b].attempts + row.attempts
  {
    TotalAttemptsSplits(m, b);
    TotalAttemptsSplits(m[b := row], b);
    assert m[b := row] - {b} == m - {b};
  }

  // ---- one cancellation

  ghost function Idle(db: Db, campaign: nat): nat {
    |Counters.AgentsAt(db.agents, campaign, AgentState.Available)|
  }

  /** A cancellation that takes effect frees one agent and charges one attempt; any other does neither. */
  lemma CancelAccounts(w: World, c: nat, wall: Time, campaign: nat)
    requires Inv(w) && Shaped(w) && c in w.db.calls && w.db.calls[c].campaign == campaign
    ensures var (after, won) := (TxCancel(w.db, c, wall), Counters.Bit(Unanswered(w.db.calls[c])));
      && Idle(after, campaign) == Idle(w.db, campaign) + won
      && TotalAttempts(after.borrowers) == TotalAttempts(w.db.borrowers) + won
  {
    hide Inv, Counters.AgentsAt, TotalAttempts;
    var k := w.db.calls[c];
    if Unanswered(k) {
      Preservation.LiveCallIsAnchored(w, c);
      CancelledRowsCount(w.db, c, wall);
    }
  }

  lemma CancelledRowsCount(db: Db, c: nat, wall: Time)
    requires ForeignKeys(db) && c in db.calls && Unanswered(db.calls[c])
    requires Placeable(db.calls[c], db.agents, db.borrowers) && db.agents[db.calls[c].agent].state.Dialing?
    ensures var (after, g) := (TxCancel(db, c, wall), db.calls[c].campaign);
      Idle(after, g) == Idle(db, g) + 1 && TotalAttempts(after.borrowers) == TotalAttempts(db.borrowers) + 1
  {
    hide Counters.AgentsAt, TotalAttempts;
    var k, after := db.calls[c], TxCancel(db, c, wall);
    Counters.AgentCountAfter(db.agents, k.agent, after.agents[k.agent], k.campaign, AgentState.Available);
    TotalAttemptsAfter(db.borrowers, k.borrower, after.borrowers[k.borrower]);
  }

  // ---- the sweep's steps among all others

  /** cancelled: calls the sweep's own transactions cancelled. freed, charged: agents made AVAILABLE and
      attempts added by those transactions. */
  datatype Account = Account(cancelled: int, freed: int, charged: int)

  /** `mine` marks the cancellations of one sweep of this campaign among the steps of a run. */
  ghost predicate Marks(w: World, steps: seq<Step>, mine: seq<bool>, campaign: nat) {
    && |mine| == |steps|
    && forall i :: 0 <= i < |steps| && mine[i] ==>
      steps[i].Cancel? && steps[i].c in w.db.calls && w.db.calls[steps[i].c].campaign == campaign
  }

  predicate TakesEffect(w: World, s: Step) {
    s.Cancel? && s.c in w.db.calls && Unanswered(w.db.calls[s.c])
  }

  /** The calls the sweep's own steps cancelled. */
  ghost function Won(w: World, steps: seq<Step>, mine: seq<bool>): set<nat>
    requires CanRun(w, steps) && |mine| == |steps|
    decreases |steps|
  {
    if steps == [] then {}
    else (if mine[0] && TakesEffect(w, steps[0]) then {steps[0].c} else {})
         + Won(Do(w, steps[0]), steps[1..], mine[1..])
  }

  ghost function Tally(w: World, steps: seq<Step>, mine: seq<bool>, campaign: nat): Account
    requires CanRun(w, steps) && |mine| == |steps|
    decreases |steps|
  {
    if steps == [] then Account(0, 0, 0)
    else
      var v := Do(w, steps[0]);
      var t := Tally(v, steps[1..], mine[1..], campaign);
      if !mine[0] then t
      else Account(t.cancelled + Counters.Bit(TakesEffect(w, steps[0])),
                   t.freed + Idle(v.db, campaign) - Idle(w.db, campaign),
                   t.charged + TotalAttempts(v.db.borrowers) - TotalAttempts(w.db.borrowers))
  }

  lemma StepKeepsMarks(w: World, steps: seq<Step>, mine: seq<bool>, campaign: nat)
    requires steps != [] && Marks(w, steps, mine, campaign) && Shaped(w) && Enabled(w, steps[0])
    ensures Marks(Do(w, steps[0]), steps[1..], mine[1..], campaign)
  {
    hide Shaped, Enabled, Do;
    forall i | 0 <= i < |steps| - 1 && mine[1..][i]
      ensures steps[1..][i].Cancel? && steps[1..][i].c in Do(w, steps[0]).db.calls
      ensures Do(w, steps[0]).db.calls[steps[1..][i].c].campaign == campaign
    {
      assert mine[i + 1] && steps[1..][i] == steps[i + 1];
      EndToEnd.StepKeepsIdentity(w, steps[0], steps[i + 1].c);
    }
  }

  lemma OwnStepAccounts(w: World, s: Step, campaign: nat)
    requires s.Cancel? && s.c in w.db.calls && w.db.calls[s.c].campaign == campaign
    requires Shaped(w) && Enabled(w, s) && Inv(w)
    ensures Idle(Do(w, s).db, campaign) == Idle(w.db, campaign) + Counters.Bit(TakesEffect(w, s))
    ensures TotalAttempts(Do(w, s).db.borrowers)
            == TotalAttempts(w.db.borrowers) + Counters.Bit(TakesEffect(w, s))
  {
    hide Inv, Idle, TotalAttempts;
    CancelAccounts(w, s.c, s.wall, campaign);
  }

  lemma {:induction false} FinishedIsNotWon(w: World, steps: seq<Step>, mine: seq<bool>, c: nat)
    requires CanRun(w, steps) && |mine| == |steps| && c in w.db.calls && Terminal(w.db.calls[c].state) && Inv(w)
    ensures c !in Won(w, steps, mine)
    decreases |steps|
  {
    hide Inv, Shaped, Enabled, Do;
    if steps != [] {
      Finality.TerminalHistoryStays(w, steps[0], c);
      StepKeepsInv(w, steps[0]);
      FinishedIsNotWon(Do(w, steps[0]), steps[1..], mine[1..], c);
    }
  }

  lemma EffectIsFinal(w: World, s: Step)
    requires TakesEffect(w, s) && Shaped(w) && Enabled(w, s)
    ensures s.c in Do(w, s).db.calls && Do(w, s).db.calls[s.c].state.Cancelled?
    ensures s.c in Do(w, s).history && EndedByPullback(Do(w, s).history[s.c])
  {
  }

  /** The sweep's books balance, whatever is interleaved with it: the number of its cancellations that took
      effect is the number of calls they cancelled, the number of agents they freed and the number of
      attempts they charged. */
  lemma {:induction false} SweepAccounts(w: World, steps: seq<Step>, mine: seq<bool>, campaign: nat)
    requires CanRun(w, steps) && Marks(w, steps, mine, campaign) && Inv(w)
    ensures var t := Tally(w, steps, mine, campaign);
      |Won(w, steps, mine)| == t.cancelled == t.freed == t.charged
    decreases |steps|
  {
    hide Inv, Shaped, Enabled, Do, Idle, TotalAttempts, Marks, TakesEffect;
    if steps != [] {
      var s, v := steps[0], Do(w, steps[0]);
      MarkedHere(w, steps, mine, campaign);
      StepKeepsMarks(w, steps, mine, campaign);
      StepKeepsInv(w, s);
      SweepAccounts(v, steps[1..], mine[1..], campaign);
      if mine[0] {
        OwnStepAccounts(w, s, campaign);
        if TakesEffect(w, s) {
          EffectIsFinal(w, s);
          FinishedIsNotWon(v, steps[1..], mine[1..], s.c);
          assert Won(w, steps, mine) == {s.c} + Won(v, steps[1..], mine[1..]);
        } else {
          assert Won(w, steps, mine) == Won(v, steps[1..], mine[1..]);
        }
      } else {
        assert Won(w, steps, mine) == Won(v, steps[1..], mine[1..]);
      }
    }
  }

  lemma MarkedHere(w: World, steps: seq<Step>, mine: seq<bool>, campaign: nat)
    requires steps != [] && Marks(w, steps, mine, campaign)
    ensures |mine| == |steps|
    ensures mine[0] ==> steps[0].Cancel? && steps[0].c in w.db.calls && w.db.calls[steps[0].c].campaign == campaign
  {
  }

  // ---- which calls these are

  lemma FailEachHistory(w: World, orphans: seq<nat>, wall: Time, c: nat)
    requires ForeignKeys(w.db) && w.history.Keys == w.db.calls.Keys && c in w.history
    requires forall o :: o in orphans ==> o in w.db.calls
    ensures c in FailEach(w, orphans, wall).history
  {
    Finality.FailEachGrows(w, orphans, wall);
    hide FailEach;
  }

  lemma {:induction false} FailEachBlamesTheReaper(w: World, orphans: seq<nat>, wall: Time, c: nat)
    requires ForeignKeys(w.db) && w.history.Keys == w.db.calls.Keys && c in w.history
    requires forall o :: o in orphans ==> o in w.db.calls
    ensures var h := FailEach(w, orphans, wall).history;
      c in h && (EndedByPullback(h[c]) ==> EndedByPullback(w.history[c]))
  {
    if orphans != [] {
      hide FailOne, FailAll, EndedByPullback, Track;
      var front, o := orphans[..|orphans| - 1], orphans[|orphans| - 1];
      FailEachBlamesTheReaper(w, front, wall, c);
      var v := FailEach(w, front, wall);
      FailEachHistory(w, front, wall, c);
      TrackBlamesItsCause(v, FailOne(v.db, o, wall), o, [CallState.Failed], ByReaper, c);
    }
  }

  lemma ReapBlamesTheReaper(w: World, s: Step, c: nat)
    requires s.Reap? && Shaped(w) && Enabled(w, s) && c in w.history
    ensures c in Do(w, s).history && (EndedByPullback(Do(w, s).history[c]) ==> EndedByPullback(w.history[c]))
  {
    FailEachBlamesTheReaper(w, s.orphans, s.wall, c);
    hide FailEach, TxReap;
  }

  lemma TrackBlamesItsCause(w: World, db: Db, d: nat, states: seq<CallState>, cause: Cause, c: nat)
    requires d in w.history && d in db.calls && c in w.history && !cause.ByPullback?
    ensures EndedByPullback(Track(w, db, d, states, cause).history[c]) ==> EndedByPullback(w.history[c])
  {
    if d == c && states != [] {
      var h := w.history[c] + Entries(states, cause);
      assert h[|h| - 1] == Entry(states[|states| - 1], cause);
    }
  }

  lemma WorkerStepBlamesItself(w: World, s: Step, c: nat)
    requires (s.Reject? || s.Initiate?) && Shaped(w) && Enabled(w, s) && c in w.history
    ensures c in Do(w, s).history && (EndedByPullback(Do(w, s).history[c]) ==> EndedByPullback(w.history[c]))
  {
    Preservation.WorkerStepAddresses(w, s);
    hide Shaped, Enabled, TxReject, TxInitiate, RefTaken, EndedByPullback, Entries;
    if s.Reject? {
      var k := w.inflight[s.c];
      TrackBlamesItsCause(Forget(w, s.c), TxReject(w.db, s.c, k.agent, k.borrower, s.wall), s.c,
                          [CallState.Failed], ByWorker, c);
    } else if !RefTaken(w.db, s.c, w.db.calls[s.c].provider, s.pcid) {
      TrackBlamesItsCause(Forget(w, s.c), TxInitiate(w.db, s.c, w.inflight[s.c].agent, s.pcid, s.dialLease, s.wall),
                          s.c, [CallState.Initiated], ByWorker, c);
    }
  }

  lemma DeliveryBlamesTheEvent(w: World, s: Step, c: nat)
    requires s.Deliver? && Shaped(w) && Enabled(w, s) && c in w.history
    ensures c in Do(w, s).history && (EndedByPullback(Do(w, s).history[c]) ==> EndedByPullback(w.history[c]))
  {
    Lifecycle.ShapedForeignKeys(w);
    var db := TxApply(w.db, s.e, s.c, s.seen, s.incoming, w.now, s.wrapup, s.wall);
    ApplyKeepsTheCall(w, s);
    TrackBlamesItsCause(w, db, s.c, Writes(w.db, s.c, s.seen, s.incoming), ByEvent(s.e), c);
    hide TxApply, Writes, WasCommitted, EndedByPullback, Shaped, Entries;
  }

  lemma ApplyKeepsTheCall(w: World, s: Step)
    requires s.Deliver? && Shaped(w) && Enabled(w, s)
    ensures s.c in TxApply(w.db, s.e, s.c, s.seen, s.incoming, w.now, s.wrapup, s.wall).calls
  {
    EndToEnd.ApplyKeepsIdentity(w.db, s.e, s.c, s.seen, s.incoming, w.now, s.wrapup, s.wall, s.c);
    hide TxApply, WasCommitted;
  }

  lemma CancelBlamesThePullback(w: World, s: Step, c: nat)
    requires s.Cancel? && Shaped(w) && Enabled(w, s) && c in w.history
    ensures c in Do(w, s).history
    ensures EndedByPullback(Do(w, s).history[c]) && !EndedByPullback(w.history[c]) ==> TakesEffect(w, s) && s.c == c
  {
  }

  lemma QuietStepKeepsHistory(w: World, s: Step, c: nat)
    requires Preservation.Quiet(s) && Shaped(w) && Enabled(w, s) && c in w.history
    ensures c in Do(w, s).history && Do(w, s).history[c] == w.history[c]
  {
    hide Shaped, Enabled, TxIngest, TxUnknown, TxGiveUp;
  }

  lemma PlaceKeepsOtherHistory(w: World, s: Step, c: nat)
    requires s.Place? && Shaped(w) && Enabled(w, s) && c in w.history
    ensures c in Do(w, s).history && Do(w, s).history[c] == w.history[c]
  {
    hide KeyTaken;
  }

  /** Only a pullback that takes effect ends a call as cancelled by the pullback. */
  lemma OnlyPullbacksCancel(w: World, s: Step, c: nat)
    requires Shaped(w) && Enabled(w, s) && c in w.history
    ensures c in Do(w, s).history
    ensures EndedByPullback(Do(w, s).history[c]) && !EndedByPullback(w.history[c]) ==> TakesEffect(w, s) && s.c == c
  {
    hide Shaped, Enabled, Do, EndedByPullback, TakesEffect;
    if s.Cancel? {
      CancelBlamesThePullback(w, s, c);
    } else if s.Reap? {
      ReapBlamesTheReaper(w, s, c);
    } else if s.Reject? || s.Initiate? {
      WorkerStepBlamesItself(w, s, c);
    } else if s.Deliver? {
      DeliveryBlamesTheEvent(w, s, c);
    } else if s.Place? {
      PlaceKeepsOtherHistory(w, s, c);
    } else {
      Pullback.QuietIsTheRest(s);
      QuietStepKeepsHistory(w, s, c);
    }
  }

  lemma {:induction false} FinishedHistoryStays(w: World, steps: seq<Step>, c: nat)
    requires CanRun(w, steps) && c in w.db.calls && Terminal(w.db.calls[c].state) && Inv(w)
    ensures c in w.history && c in After(w, steps).history && After(w, steps).history[c] == w.history[c]
    decreases |steps|
  {
    hide Inv, Shaped, Enabled, Do;
    if steps == [] {
      Preservation.HistoryKnown(w);
    } else {
      Finality.TerminalHistoryStays(w, steps[0], c);
      StepKeepsInv(w, steps[0]);
      FinishedHistoryStays(Do(w, steps[0]), steps[1..], c);
    }
  }

  lemma {:induction false} WonAreEnded(w: World, steps: seq<Step>, mine: seq<bool>, c: nat)
    requires CanRun(w, steps) && |mine| == |steps| && c in Won(w, steps, mine) && Inv(w)
    ensures c in After(w, steps).history && EndedByPullback(After(w, steps).history[c])
    decreases |steps|
  {
    hide Inv, Shaped, Enabled, Do, TakesEffect, EndedByPullback;
    var s, v := steps[0], Do(w, steps[0]);
    StepKeepsInv(w, s);
    if c in Won(v, steps[1..], mine[1..]) {
      WonAreEnded(v, steps[1..], mine[1..], c);
    } else {
      EffectIsFinal(w, s);
      FinishedHistoryStays(v, steps[1..], c);
    }
  }

  /** Nobody but the sweep tries to cancel call c. */
  ghost predicate OursAlone(steps: seq<Step>, mine: seq<bool>, c: nat) {
    |mine| == |steps| && forall i :: 0 <= i < |steps| && steps[i].Cancel? && steps[i].c == c ==> mine[i]
  }

  lemma {:induction false} EndedAreWon(w: World, steps: seq<Step>, mine: seq<bool>, c: nat)
    requires CanRun(w, steps) && OursAlone(steps, mine, c) && c in w.history && !EndedByPullback(w.history[c])
    requires c in After(w, steps).history && EndedByPullback(After(w, steps).history[c])
    ensures c in Won(w, steps, mine)
    decreases |steps|
  {
    hide Shaped, Enabled, Do, EndedByPullback;
    if steps != [] {
      var s, v := steps[0], Do(w, steps[0]);
      OnlyPullbacksCancel(w, s, c);
      if !EndedByPullback(v.history[c]) {
        assert forall i :: 0 <= i < |steps| - 1 ==> steps[1..][i] == steps[i + 1] && mine[1..][i] == mine[i + 1];
        EndedAreWon(v, steps[1..], mine[1..], c);
      }
    }
  }

  ghost predicate EndedIn(w: World, c: nat) { c in w.history && EndedByPullback(w.history[c]) }

  lemma UnansweredIsNotEnded(w: World, c: nat)
    requires Inv(w) && c in w.db.calls && Unanswered(w.db.calls[c])
    ensures c in w.history && !EndedByPullback(w.history[c])
  {
    Preservation.CallHistory(w, c);
    hide Inv;
  }

  /** The candidates a sweep cancels, if no other sweep has picked them too, are exactly those whose history
      ends with a cancellation by the pullback; so many agents were freed and attempts charged by it. */
  lemma SweepEndsWhatItCounts(w: World, steps: seq<Step>, mine: seq<bool>, campaign: nat, allowed: int, rows: set<nat>)
    requires CanRun(w, steps) && Marks(w, steps, mine, campaign) && Inv(w)
    requires Pullback.IsSelection(w.db, campaign, allowed, rows)
    requires forall i :: 0 <= i < |steps| && mine[i] ==> steps[i].c in rows
    requires forall r :: r in rows ==> OursAlone(steps, mine, r)
    ensures Won(w, steps, mine) == set r | r in rows && EndedIn(After(w, steps), r)
    ensures var (t, n) := (Tally(w, steps, mine, campaign), |set r | r in rows && EndedIn(After(w, steps), r)|);
      t == Account(n, n, n)
  {
    hide Inv, CanRun, After, EndedByPullback, Tally;
    SweepAccounts(w, steps, mine, campaign);
    var v := After(w, steps);
    forall c | c in Won(w, steps, mine) ensures c in rows && EndedIn(v, c) {
      hide Marks;
      WonAreMarked(w, steps, mine, c);
      WonAreEnded(w, steps, mine, c);
    }
    hide Won;
    forall r | r in rows && EndedIn(v, r) ensures r in Won(w, steps, mine) {
      UnansweredIsNotEnded(w, r);
      EndedAreWon(w, steps, mine, r);
    }
  }

  lemma {:induction false} WonAreMarked(w: World, steps: seq<Step>, mine: seq<bool>, c: nat)
    requires CanRun(w, steps) && |mine| == |steps| && c in Won(w, steps, mine)
    ensures exists i :: 0 <= i < |steps| && mine[i] && steps[i].Cancel? && steps[i].c == c
    decreases |steps|
  {
    hide Shaped, Enabled, Do;
    if c in Won(Do(w, steps[0]), steps[1..], mine[1..]) {
      WonAreMarked(Do(w, steps[0]), steps[1..], mine[1..], c);
      var i :| 0 <= i < |steps| - 1 && mine[1..][i] && steps[1..][i].Cancel? && steps[1..][i].c == c;
      assert mine[i + 1] && steps[i + 1].c == c;
    }
  }
}
