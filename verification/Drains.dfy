/** A drain of the ledger is a run of the protocol, so all that holds of reachable states holds of it. */
module Drains {
  import opened Domain
  import opened Rows
  import opened Transactions
  import opened World
  import opened Protocol
  import opened Runs
  import opened Ledger
  import EventNames
  import Deduplication
  import Lifecycle
  import Preservation
  import Recovery

  /** The step an applier takes for event e when nothing intervenes between its read and its update. */
  ghost function StepFor(db: Db, e: nat, wrapup: Time, wall: Time): Option<Step>
    requires e in db.events
  {
    var ev := db.events[e];
    var c := Lookup(db, ev.provider, ev.pcid);
    var incoming := EventNames.Incoming(ev.etype);
    if c.None? then Some(Unknown(e))
    else if incoming.None? then None
    else Some(Deliver(e, c.value, db.calls[c.value].state, incoming.value, wrapup, wall))
  }

  lemma CurrentStateWasCommitted(w: World, c: nat)
    requires Inv(w) && c in w.db.calls && w.db.calls[c].pcid.Some?
    ensures c in w.history && WasCommitted(w.history[c], w.db.calls[c].state)
  {
    Preservation.CallHistory(w, c);
    Recovery.CallIsRowOk(w, c);
    Preservation.CallIsCommitted(w, c);
    hide Inv, LegalHistory;
    var h := w.history[c];
    assert h[|h| - 1].state == w.db.calls[c].state;
  }

  /** Applying one unapplied event is an Unknown step, a Deliver step that takes the incoming state from
      the event's row, or nothing at all: exactly one of the steps the laws are about. */
  lemma ApplyOneIsAStep(w: World, e: nat, wrapup: Time, wall: Time)
    requires Inv(w) && e in w.db.events && !w.db.events[e].applied
    ensures Shaped(w) && ForeignKeys(w.db)
    ensures var (s, after) := (StepFor(w.db, e, wrapup, wall), TxApplyOne(w.db, e, w.now, wrapup, wall));
      if s.None? then after == w.db
      else
        && Enabled(w, s.value) && Do(w, s.value).db == after && s.value.e == e
        && (s.value.Unknown? || s.value.Deliver?)
        && (s.value.Deliver? ==> EventNames.Incoming(w.db.events[e].etype) == Some(s.value.incoming))
  {
    InvIsShaped(w);
    hide Inv, EventNames.Incoming;
    Lifecycle.ShapedForeignKeys(w);
    hide Shaped, ForeignKeys, TxApply, WasCommitted, Lookup;
    var ev := w.db.events[e];
    var s := StepFor(w.db, e, wrapup, wall);
    if s.Some? && s.value.Deliver? {
      Preservation.CallIsCommitted(w, s.value.c);
      CurrentStateWasCommitted(w, s.value.c);
      Lifecycle.DoDeliver(w, s.value);
    } else if s.Some? {
      UnknownMarks(w, s.value);
    }
  }

  lemma UnknownMarks(w: World, s: Step)
    requires s.Unknown? && Shaped(w) && Enabled(w, s)
    ensures s.e in w.db.events && Do(w, s).db == TxUnknown(w.db, s.e)
  {
  }

  /** Events an applier may take: distinct rows, none of them applied. */
  ghost predicate Fetched(db: Db, rows: seq<nat>) {
    Distinct(rows) && forall e :: e in rows ==> e in db.events && !db.events[e].applied
  }

  lemma ApplyOneLeavesOthers(db: Db, e: nat, now: Time, wrapup: Time, wall: Time, f: nat)
    requires ForeignKeys(db) && e in db.events && f in db.events && f != e
    ensures f in TxApplyOne(db, e, now, wrapup, wall).events
    ensures TxApplyOne(db, e, now, wrapup, wall).events[f] == db.events[f]
  {
    var ev := db.events[e];
    var c, incoming := Lookup(db, ev.provider, ev.pcid), EventNames.Incoming(ev.etype);
    if c.Some? && incoming.Some? {
      Deduplication.ApplyKeepsOtherRows(db, e, c.value, db.calls[c.value].state, incoming.value, now, wrapup, wall);
    }
    hide TxApply, Lookup, EventNames.Incoming;
  }

  /** Applying a fetched batch in order reaches a reachable state, and the rows not yet reached are
      still unapplied. */
  lemma {:induction false} ApplyingIsARun(w: World, rows: seq<nat>, n: nat, wrapup: Time, wall: Time) returns (v: World)
    requires Reachable(w) && ForeignKeys(w.db) && Fetched(w.db, rows) && n <= |rows|
    ensures Reachable(v) && v.now == w.now && v.db == ApplyEach(w.db, rows[..n], w.now, wrapup, wall)
    ensures v.db.events.Keys == w.db.events.Keys
    ensures forall i :: n <= i < |rows| ==> v.db.events[rows[i]] == w.db.events[rows[i]]
    decreases n
  {
    hide Reachable, Inv, Shaped, Enabled, Do, TxApplyOne, StepFor;
    if n == 0 {
      v := w;
    } else {
      var u := ApplyingIsARun(w, rows, n - 1, wrapup, wall);
      var e := rows[n - 1];
      assert rows[..n][..n - 1] == rows[..n - 1];
      ReachableHasInv(u);
      ApplyOneIsAStep(u, e, wrapup, wall);
      var s := StepFor(u.db, e, wrapup, wall);
      if s.None? {
        v := u;
      } else {
        StepIsReachable(u, s.value);
        v := Do(u, s.value);
        LedgerStepKeepsNow(u, s.value);
      }
      forall i | n <= i < |rows| ensures v.db.events[rows[i]] == w.db.events[rows[i]] {
        ApplyOneLeavesOthers(u.db, e, w.now, wrapup, wall, rows[i]);
      }
    }
  }

  lemma LedgerStepKeepsNow(w: World, s: Step)
    requires (s.Unknown? || s.Deliver? || s.GiveUp?) && Shaped(w) && Enabled(w, s)
    ensures Do(w, s).now == w.now
  {
    hide Shaped, Enabled, TxApply, TxUnknown, TxGiveUp, Writes;
  }

  /** An aged event nobody knows. */
  predicate Hopeless(db: Db, e: nat) {
    e in db.events && !db.events[e].applied && db.events[e].anomaly == Some(UnknownCall)
  }

  lemma GiveUpMarks(w: World, s: Step)
    requires s.GiveUp? && Shaped(w) && Enabled(w, s)
    ensures s.e in w.db.events && Do(w, s).db == TxGiveUp(w.db, s.e)
  {
  }

  lemma {:induction false} GivingUpIsARun(w: World, aged: set<nat>) returns (v: World)
    requires Reachable(w)
    ensures Reachable(v) && v.now == w.now && v.db == GiveUpAged(w.db, aged)
    decreases |aged|
  {
    hide Reachable, Inv, Shaped, Do;
    if aged == {} {
      v := w;
      assert GiveUpAged(w.db, {}) == w.db;
    } else {
      var e :| e in aged;
      var u := GivingUpIsARun(w, aged - {e});
      if Hopeless(u.db, e) {
        StepIsReachable(u, GiveUp(e));
        GiveUpMarks(u, GiveUp(e));
        LedgerStepKeepsNow(u, GiveUp(e));
        v := Do(u, GiveUp(e));
      } else {
        v := u;
      }
      OneMoreGivenUp(w.db, aged, e);
    }
  }

  lemma OneMoreGivenUp(db: Db, aged: set<nat>, e: nat)
    requires e in aged
    ensures var before := GiveUpAged(db, aged - {e});
      GiveUpAged(db, aged) == if Hopeless(before, e) then TxGiveUp(before, e) else before
  {
    var before := GiveUpAged(db, aged - {e});
    assert GiveUpAged(db, aged).events == if Hopeless(before, e) then TxGiveUp(before, e).events else before.events;
  }

  /** A whole drain, from a reachable state, ends in the tables of a reachable state. */
  lemma DrainIsARun(w: World, rows: seq<nat>, aged: set<nat>, wrapup: Time, wall: Time)
    requires Reachable(w) && ForeignKeys(w.db) && Fetched(w.db, rows)
    ensures exists v: World :: Reachable(v) && v.db == TxDrain(w.db, rows, aged, w.now, wrapup, wall)
  {
    hide Reachable, ForeignKeys, ApplyEach, GiveUpAged;
    assert rows[..|rows|] == rows;
    var u := ApplyingIsARun(w, rows, |rows|, wrapup, wall);
    var v := GivingUpIsARun(u, aged);
  }
}
