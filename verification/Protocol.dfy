/** The steps of the protocol: when each can be taken, and the world it leads to. */
module Protocol {
  import opened Domain
  import opened Rows
  import opened Transactions
  import opened World

  datatype Step =
    | AddAgent(a: nat, campaign: nat)
    | AddBorrower(b: nat, campaign: nat, maxAttempts: nat, eligibleAt: Time)
    | SetPresence(a: nat, presence: AgentState)
    | Place(campaign: nat, pick: Pick, lease: Time, wall: Time)
    | Reject(c: nat, wall: Time)
    | Initiate(c: nat, pcid: string, dialLease: Time, wall: Time)
    | Crash(c: nat)
    | Ingest(e: nat, provider: string, eventId: string, ref: Option<string>, etype: string)
    | Unknown(e: nat)
    | Deliver(e: nat, c: nat, seen: CallState, incoming: CallState, wrapup: Time, wall: Time)
    | GiveUp(e: nat)
    | Cancel(c: nat, wall: Time)
    | Reap(t: Time, orphans: seq<nat>, wall: Time)
    | Elapse(now: Time)

  /** A state some committed read of this call can have returned since it was dialled. */
  ghost predicate WasCommitted(h: seq<Entry>, seen: CallState) {
    !seen.Answered? && 2 <= Rank(seen) && exists i :: 0 <= i < |h| && h[i].state == seen
  }

  predicate EndedByPullback(h: seq<Entry>) { h != [] && h[|h| - 1] == Entry(CallState.Cancelled, ByPullback) }

  predicate EndedByReaper(h: seq<Entry>) { h != [] && h[|h| - 1] == Entry(CallState.Failed, ByReaper) }

  predicate Refers(ev: Event, call: Call) {
    ev.pcid.Some? && call.pcid == ev.pcid && call.provider == ev.provider
  }

  /** The timely-worker hypothesis: an allocation acts only while its reserve lease has not passed. */
  predicate Timely(w: World, c: nat) {
    c in w.inflight && w.now <= w.inflight[c].lease
  }

  ghost predicate Enabled(w: World, s: Step) {
    match s
    case AddAgent(a, _) => a !in w.db.agents
    case AddBorrower(b, _, maxAttempts, _) => b !in w.db.borrowers && 1 <= maxAttempts
    case SetPresence(a, presence) =>
      && a in w.db.agents && !Busy(w.db.agents[a])
      && (presence.Available? || presence.Offline? || presence.Paused?)
    case Place(campaign, pick, _, wall) => PickOk(w.db, campaign, pick, wall)
    case Reject(c, _) => Timely(w, c)
    case Initiate(c, _, _, _) => Timely(w, c)
    case Crash(c) => c in w.inflight
    case Ingest(e, _, _, _, _) => e !in w.db.events
    case Unknown(e) => e in w.db.events && !w.db.events[e].applied
    case Deliver(e, c, seen, incoming, _, _) =>
      && e in w.db.events && !w.db.events[e].applied && c in w.history && c in w.db.calls
      && Refers(w.db.events[e], w.db.calls[c]) && WasCommitted(w.history[c], seen)
    case GiveUp(e) => e in w.db.events && !w.db.events[e].applied && w.db.events[e].anomaly == Some(UnknownCall)
    case Cancel(c, _) => c in w.db.calls
    case Reap(t, orphans, _) => t <= w.now && IsOrphanList(w.db, orphans, t)
    case Elapse(now) => w.now <= now
  }

  /** The tables become db; call c was written `states` on the way. */
  function Track(w: World, db: Db, c: nat, states: seq<CallState>, cause: Cause): World
    requires c in w.history && c in db.calls
  {
    w.(db := db, history := w.history[c := w.history[c] + Entries(states, cause)],
       serving := if states == [] then w.serving else Unserve(w.serving, db.calls[c]))
  }

  /** The values `apply_one` writes to calls.state. */
  function Writes(db: Db, c: nat, seen: CallState, incoming: CallState): seq<CallState>
    requires c in db.calls
  {
    if CanApply(seen, incoming).Skip? || db.calls[c].rank >= Rank(incoming) then []
    else if incoming.Answered?
    then [CallState.Answered, if Bridgeable(db, c) then CallState.Connected else CallState.Abandoned]
    else [incoming]
  }

  function Placed(w: World, db: Db, c: nat, lease: Time): World
    requires c in db.calls && db.calls[c].borrower in w.dialled
  {
    var k := db.calls[c];
    w.(db := db, inflight := w.inflight[c := Allocation(k.agent, k.borrower, lease)],
       history := w.history[c := [Entry(CallState.Reserved, ByWorker)]],
       serving := w.serving[k.agent := c],
       dialled := w.dialled[k.borrower := w.dialled[k.borrower] + [c]])
  }

  function Forget(w: World, c: nat): World { w.(inflight := w.inflight - {c}) }

  /** The rows an allocation's statements address exist. */
  predicate Addressable(w: World, c: nat) {
    && c in w.inflight && c in w.db.calls && c in w.history
    && w.inflight[c].agent in w.db.agents && w.inflight[c].borrower in w.db.borrowers
  }

  function AfterPlace(w: World, campaign: nat, pick: Pick, lease: Time, wall: Time): World
    requires PickOk(w.db, campaign, pick, wall) && w.dialled.Keys == w.db.borrowers.Keys
  {
    var (db, created) := TxReserve(w.db, campaign, pick, lease, wall);
    if created.None? then w.(db := db) else Placed(w, db, created.value, lease)
  }

  function AfterReject(w: World, c: nat, wall: Time): World
    requires Addressable(w, c)
  {
    var k := w.inflight[c];
    Track(Forget(w, c), TxReject(w.db, c, k.agent, k.borrower, wall), c, [CallState.Failed], ByWorker)
  }

  /** A provider call id already in use rolls transaction 3 back, and its worker is gone. */
  function AfterInitiate(w: World, c: nat, pcid: string, dialLease: Time, wall: Time): World
    requires Addressable(w, c)
  {
    if RefTaken(w.db, c, w.db.calls[c].provider, pcid) then Forget(w, c)
    else Track(Forget(w, c), TxInitiate(w.db, c, w.inflight[c].agent, pcid, dialLease, wall), c,
               [CallState.Initiated], ByWorker)
  }

  function AfterDeliver(w: World, e: nat, c: nat, seen: CallState, incoming: CallState,
                        wrapup: Time, wall: Time): World
    requires e in w.db.events && c in w.db.calls && c in w.history && ForeignKeys(w.db)
  {
    Track(w, TxApply(w.db, e, c, seen, incoming, w.now, wrapup, wall), c,
          Writes(w.db, c, seen, incoming), ByEvent(e))
  }

  function AfterCancel(w: World, c: nat, wall: Time): World
    requires c in w.db.calls && c in w.history && ForeignKeys(w.db)
  {
    Track(w, TxCancel(w.db, c, wall), c,
          if Unanswered(w.db.calls[c]) then [CallState.Cancelled] else [], ByPullback)
  }

  function AfterFail(w: World, c: nat, wall: Time): World
    requires c in w.db.calls && c in w.history && ForeignKeys(w.db)
  {
    Track(w, FailOne(w.db, c, wall), c, [CallState.Failed], ByReaper)
  }

  function FailEach(w: World, orphans: seq<nat>, wall: Time): (v: World)
    requires ForeignKeys(w.db) && w.history.Keys == w.db.calls.Keys
    requires forall c :: c in orphans ==> c in w.db.calls
    ensures v.db == FailAll(w.db, orphans, wall) && v.history.Keys == v.db.calls.Keys && v.now == w.now
  {
    if orphans == [] then w
    else AfterFail(FailEach(w, orphans[..|orphans| - 1], wall), orphans[|orphans| - 1], wall)
  }

  ghost function AfterReap(w: World, t: Time, orphans: seq<nat>, wall: Time): World
    requires ForeignKeys(w.db) && w.history.Keys == w.db.calls.Keys && IsOrphanList(w.db, orphans, t)
  {
    FailEach(w, orphans, wall).(db := TxReap(w.db, orphans, t, wall))
  }

  /** The part of the invariant the statements need to find their rows. */
  ghost predicate Shaped(w: World) {
    && ForeignKeys(w.db) && w.history.Keys == w.db.calls.Keys && w.dialled.Keys == w.db.borrowers.Keys
    && forall c :: c in w.inflight ==> Addressable(w, c)
  }

  lemma InvIsShaped(w: World)
    requires Inv(w)
    ensures Shaped(w)
  {
    hide Bound, Accounted, KeysOk, RefsUnique, CallRowOk, NumberedOne, InLine, LegalHistory;
    forall c | c in w.inflight ensures Addressable(w, c) {
      assert InflightOne(w.now, w.db.calls[c], w.inflight[c]);
      assert Placeable(w.db.calls[c], w.db.agents, w.db.borrowers);
    }
    forall c | c in w.db.calls
      ensures w.db.calls[c].agent in w.db.agents && w.db.calls[c].borrower in w.db.borrowers
    {
      assert Placeable(w.db.calls[c], w.db.agents, w.db.borrowers);
    }
  }

  ghost function Do(w: World, s: Step): World
    requires Shaped(w) && Enabled(w, s)
  {
    match s
    case AddAgent(a, campaign) =>
      w.(db := w.db.(agents := w.db.agents[a := Agent(campaign, AgentState.Offline, 0, None, None)]))
    case AddBorrower(b, campaign, maxAttempts, eligibleAt) =>
      w.(db := w.db.(borrowers :=
           w.db.borrowers[b := Borrower(campaign, BorrowerState.Pending, 0, maxAttempts, eligibleAt, None)]),
         dialled := w.dialled[b := []])
    case SetPresence(a, presence) =>
      w.(db := w.db.(agents := w.db.agents[a := ForceState(w.db.agents[a], presence, None, None)]))
    case Place(campaign, pick, lease, wall) => AfterPlace(w, campaign, pick, lease, wall)
    case Reject(c, wall) => AfterReject(w, c, wall)
    case Initiate(c, pcid, dialLease, wall) => AfterInitiate(w, c, pcid, dialLease, wall)
    case Crash(c) => Forget(w, c)
    case Ingest(e, provider, eventId, ref, etype) => w.(db := TxIngest(w.db, e, provider, eventId, ref, etype))
    case Unknown(e) => w.(db := TxUnknown(w.db, e))
    case Deliver(e, c, seen, incoming, wrapup, wall) => AfterDeliver(w, e, c, seen, incoming, wrapup, wall)
    case GiveUp(e) => w.(db := TxGiveUp(w.db, e))
    case Cancel(c, wall) => AfterCancel(w, c, wall)
    case Reap(t, orphans, wall) => AfterReap(w, t, orphans, wall)
    case Elapse(now) => w.(now := now)
  }
}
