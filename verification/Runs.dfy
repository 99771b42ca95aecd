/** Runs of the protocol: any number of workers, appliers, reapers and pullbacks, interleaved. */
module Runs {
  import opened Domain
  import opened Rows
  import opened Transactions
  import opened World
  import opened Protocol
  import opened Preservation
  import Recovery

  lemma EmptyHasInv()
    ensures Inv(EMPTY)
  {
  }

  lemma MarkedKeepsInv(w: World, e: nat, row: Event)
    requires Inv(w) && (row.applied ==> row.anomaly.Some?) && (!row.applied ==> row.call.None?)
    ensures Inv(w.(db := w.db.(events := w.db.events[e := row])))
  {
    hide Inv;
    MarkKeepsInv(w, e, row);
  }

  lemma ElapseKeepsInv(w: World, now: Time)
    requires Inv(w) && w.now <= now
    ensures Inv(w.(now := now))
  {
    forall c | c in w.inflight ensures c in w.db.calls && InflightOne(now, w.db.calls[c], w.inflight[c]) {
      assert InflightOne(w.now, w.db.calls[c], w.inflight[c]);
    }
  }

  lemma LedgerStepKeepsInv(w: World, s: Step)
    requires Inv(w) && Shaped(w) && Enabled(w, s) && (s.Ingest? || s.Unknown? || s.GiveUp?)
    ensures Inv(Do(w, s))
  {
    hide Inv, Shaped;
    match s
    case Ingest(e, provider, eventId, ref, etype) =>
      MarkedKeepsInv(w, e, Event(provider, eventId, ref, etype, false, None, None));
    case Unknown(e) =>
      UnappliedHasNoCall(w, e);
      MarkedKeepsInv(w, e, TxUnknown(w.db, e).events[e]);
    case GiveUp(e) =>
      MarkedKeepsInv(w, e, TxGiveUp(w.db, e).events[e]);
  }

  lemma RosterStepKeepsInv(w: World, s: Step)
    requires Inv(w) && Shaped(w) && Enabled(w, s) && (s.AddAgent? || s.AddBorrower? || s.SetPresence?)
    ensures Inv(Do(w, s))
  {
    hide Inv, Shaped;
    match s
    case AddAgent(a, campaign) =>
      SetAgentKeepsInv(w, a, Agent(campaign, AgentState.Offline, 0, None, None));
    case AddBorrower(b, campaign, maxAttempts, eligibleAt) =>
      AddBorrowerKeepsInv(w, b, Borrower(campaign, BorrowerState.Pending, 0, maxAttempts, eligibleAt, None));
    case SetPresence(a, presence) =>
      SetAgentKeepsInv(w, a, ForceState(w.db.agents[a], presence, None, None));
  }

  lemma WorkerStepKeepsInv(w: World, s: Step)
    requires (s.Place? || s.Reject? || s.Initiate? || s.Crash? || s.Cancel?) && Shaped(w) && Enabled(w, s) && Inv(w)
    ensures Inv(Do(w, s))
  {
    hide Inv, AfterPlace, AfterReject, AfterInitiate, AfterCancel, PickOk;
    match s
    case Place(campaign, pick, lease, wall) => PlaceKeepsInv(w, campaign, pick, lease, wall);
    case Reject(c, wall) =>
      OnlyReservedIsInflight(w, c);
      RejectKeepsInv(w, c, wall);
    case Initiate(c, pcid, dialLease, wall) =>
      OnlyReservedIsInflight(w, c);
      InitiateKeepsInv(w, c, pcid, dialLease, wall);
    case Crash(c) => ForgetKeepsInv(w, c);
    case Cancel(c, wall) => CancelKeepsInv(w, c, wall);
    case _ =>
  }

  lemma EventStepKeepsInv(w: World, s: Step)
    requires (s.Deliver? || s.Reap?) && Shaped(w) && Enabled(w, s) && Inv(w)
    ensures Inv(Do(w, s))
  {
    hide Inv, AfterDeliver, AfterReap, WasCommitted, IsOrphanList;
    match s
    case Deliver(e, c, seen, incoming, wrapup, wall) => DeliverKeepsInv(w, e, c, seen, incoming, wrapup, wall);
    case Reap(t, orphans, wall) => Recovery.ReapKeepsInv(w, t, orphans, wall);
    case _ =>
  }

  lemma ElapseStepKeepsInv(w: World, s: Step)
    requires s.Elapse? && Shaped(w) && Enabled(w, s) && Inv(w)
    ensures Inv(Do(w, s))
  {
    hide Inv, Shaped;
    ElapseKeepsInv(w, s.now);
  }

  lemma StepKeepsInv(w: World, s: Step)
    requires Inv(w) && Enabled(w, s)
    ensures Shaped(w) && Inv(Do(w, s))
  {
    hide Inv, Shaped, Enabled, Do;
    InvIsShaped(w);
    if s.AddAgent? || s.AddBorrower? || s.SetPresence? {
      RosterStepKeepsInv(w, s);
    } else if s.Ingest? || s.Unknown? || s.GiveUp? {
      LedgerStepKeepsInv(w, s);
    } else if s.Deliver? || s.Reap? {
      EventStepKeepsInv(w, s);
    } else if s.Elapse? {
      ElapseStepKeepsInv(w, s);
    } else {
      WorkerStepKeepsInv(w, s);
    }
  }

  ghost predicate CanRun(w: World, steps: seq<Step>)
    decreases |steps|
  {
    steps != [] ==> Shaped(w) && Enabled(w, steps[0]) && CanRun(Do(w, steps[0]), steps[1..])
  }

  ghost function After(w: World, steps: seq<Step>): World
    requires CanRun(w, steps)
    decreases |steps|
  {
    if steps == [] then w else After(Do(w, steps[0]), steps[1..])
  }

  lemma {:induction false} RunKeepsInv(w: World, steps: seq<Step>)
    requires Inv(w) && CanRun(w, steps)
    ensures Inv(After(w, steps))
    decreases |steps|
  {
    hide Inv, Shaped, Enabled, Do;
    if steps != [] {
      StepKeepsInv(w, steps[0]);
      RunKeepsInv(Do(w, steps[0]), steps[1..]);
    }
  }

  /** Some run of the protocol, started on empty tables, reaches w. */
  ghost predicate Reachable(w: World) {
    exists steps :: CanRun(EMPTY, steps) && After(EMPTY, steps) == w
  }

  lemma ReachableHasInv(w: World)
    requires Reachable(w)
    ensures Inv(w)
  {
    var steps :| CanRun(EMPTY, steps) && After(EMPTY, steps) == w;
    EmptyHasInv();
    RunKeepsInv(EMPTY, steps);
  }

  lemma {:induction false} RunAppend(w: World, steps: seq<Step>, s: Step)
    requires CanRun(w, steps) && Shaped(After(w, steps)) && Enabled(After(w, steps), s)
    ensures CanRun(w, steps + [s]) && After(w, steps + [s]) == Do(After(w, steps), s)
    decreases |steps|
  {
    hide Shaped, Enabled, Do;
    var all := steps + [s];
    if steps == [] {
      assert all == [s] && all[1..] == [];
      assert CanRun(Do(w, s), []) && After(Do(w, s), []) == Do(w, s);
    } else {
      assert all[0] == steps[0] && all[1..] == steps[1..] + [s];
      RunAppend(Do(w, steps[0]), steps[1..], s);
    }
  }

  lemma StepIsReachable(w: World, s: Step)
    requires Reachable(w) && Enabled(w, s)
    ensures Shaped(w) && Reachable(Do(w, s))
  {
    hide Inv, Shaped, Enabled, Do, CanRun, After;
    ReachableHasInv(w);
    InvIsShaped(w);
    var steps :| CanRun(EMPTY, steps) && After(EMPTY, steps) == w;
    RunAppend(EMPTY, steps, s);
  }
}
