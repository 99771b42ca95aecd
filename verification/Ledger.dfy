/** One drain of the event ledger as a function on the tables (worker/event_applier.py). */
module Ledger {
  import opened Domain
  import opened Rows
  import opened Transactions
  import opened World
  import EventNames

  predicate HasRef(db: Db, c: nat, provider: string, pcid: string) {
    c in db.calls && db.calls[c].provider == provider && db.calls[c].pcid == Some(pcid)
  }

  /** GET_BY_PROVIDER_REF; the unique index makes the row it finds the only one. */
  ghost function Lookup(db: Db, provider: string, pcid: Option<string>): (r: Option<nat>)
    ensures r.Some? ==> pcid.Some? && HasRef(db, r.value, provider, pcid.value)
    ensures r.None? && pcid.Some? ==> forall c: nat :: !HasRef(db, c, provider, pcid.value)
  {
    if pcid.Some? && exists c: nat :: HasRef(db, c, provider, pcid.value)
    then var c: nat :| HasRef(db, c, provider, pcid.value); Some(c)
    else None
  }

  lemma LookupFinds(db: Db, provider: string, pcid: string, c: nat)
    requires RefsUnique(db.calls) && HasRef(db, c, provider, pcid)
    ensures Lookup(db, provider, Some(pcid)) == Some(c)
  {
    var d := Lookup(db, provider, Some(pcid)).value;
    assert SameRef(db.calls[c], db.calls[d]);
  }

  /** `apply_one`, reading the call under no contention. An event name that is no call state raises
      before anything is written and leaves the event for the next drain. */
  ghost function TxApplyOne(db: Db, e: nat, now: Time, wrapup: Time, wall: Time): (r: Db)
    requires e in db.events && ForeignKeys(db)
    ensures ForeignKeys(r) && r.events.Keys == db.events.Keys
  {
    var ev := db.events[e];
    var c := Lookup(db, ev.provider, ev.pcid);
    var incoming := EventNames.Incoming(ev.etype);
    if c.None? then TxUnknown(db, e)
    else if incoming.None? then db
    else TxApply(db, e, c.value, db.calls[c.value].state, incoming.value, now, wrapup, wall)
  }

  ghost function ApplyEach(db: Db, rows: seq<nat>, now: Time, wrapup: Time, wall: Time): (r: Db)
    requires ForeignKeys(db) && forall e :: e in rows ==> e in db.events
    ensures ForeignKeys(r) && r.events.Keys == db.events.Keys
  {
    if rows == [] then db
    else
      var before := ApplyEach(db, rows[..|rows| - 1], now, wrapup, wall);
      TxApplyOne(before, rows[|rows| - 1], now, wrapup, wall)
  }

  /** GIVE_UP_UNKNOWN over the events received more than a minute ago. */
  function GiveUpAged(db: Db, aged: set<nat>): Db {
    db.(events := map e | e in db.events ::
          if e in aged && !db.events[e].applied && db.events[e].anomaly == Some(UnknownCall)
          then db.events[e].(applied := true) else db.events[e])
  }

  ghost function TxDrain(db: Db, rows: seq<nat>, aged: set<nat>, now: Time, wrapup: Time, wall: Time): Db
    requires ForeignKeys(db) && forall e :: e in rows ==> e in db.events
  {
    GiveUpAged(ApplyEach(db, rows, now, wrapup, wall), aged)
  }

  /** No statement of a drain moves a provider reference, so the unique index survives it. */
  lemma OneRowKeepsRefs(calls: map<nat, Call>, c: nat, row: Call)
    requires RefsUnique(calls) && c in calls && row.pcid == calls[c].pcid && row.provider == calls[c].provider
    ensures RefsUnique(calls[c := row])
  {
    forall d | d in calls && d != c ensures !SameRef(calls[d], row) && !SameRef(row, calls[d]) {
      assert !SameRef(calls[c], calls[d]);
    }
  }
}
