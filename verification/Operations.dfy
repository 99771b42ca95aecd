/** Whole operations of the workers are runs of the protocol: a reap, a pullback sweep, a batch of
    allocations and a tick of the pacing loop, from a reachable state, end in the tables of one. */
module Operations {
  import opened Domain
  import opened Rows
  import opened Transactions
  import opened World
  import opened Protocol
  import opened Runs
  import opened Allocations
  import opened Schedules
  import opened Sweeps
  import Effects
  import EndToEnd
  import Laws
  import PacingLoop
  import Preservation
  import Recovery
  import Safety

  /** The tables of some reachable state. */
  ghost predicate Committed(db: Db) { exists w: World :: Reachable(w) && w.db == db }

  /** w is reached from v by steps of the protocol. */
  ghost predicate Leads(v: World, w: World) { exists steps :: CanRun(v, steps) && After(v, steps) == w }

  lemma {:induction false} RunsJoin(w: World, steps: seq<Step>, more: seq<Step>)
    requires CanRun(w, steps) && CanRun(After(w, steps), more)
    ensures CanRun(w, steps + more) && After(w, steps + more) == After(After(w, steps), more)
    decreases |steps|
  {
    hide Shaped, Enabled, Do;
    if steps == [] {
      assert steps + more == more;
    } else {
      assert (steps + more)[1..] == steps[1..] + more;
      RunsJoin(Do(w, steps[0]), steps[1..], more);
    }
  }

  lemma WhatItLeadsToIsReachable(v: World, w: World)
    requires Reachable(v) && Leads(v, w)
    ensures Reachable(w)
  {
    hide CanRun, After;
    var steps :| CanRun(EMPTY, steps) && After(EMPTY, steps) == v;
    var more :| CanRun(v, more) && After(v, more) == w;
    RunsJoin(EMPTY, steps, more);
  }

  // ---- the reaper

  lemma ReapIsARun(w: World, t: Time, orphans: seq<nat>, wall: Time)
    requires Reachable(w) && t <= w.now && IsOrphanList(w.db, orphans, t)
    ensures ForeignKeys(w.db) && Committed(TxReap(w.db, orphans, t, wall))
  {
    hide Reachable, Inv, IsOrphanList, TxReap;
    ReachableHasInv(w);
    InvIsShaped(w);
    StepIsReachable(w, Reap(t, orphans, wall));
    assert Do(w, Reap(t, orphans, wall)).db == TxReap(w.db, orphans, t, wall);
  }

  // ---- the pullback sweep

  /** Others take steps of the protocol. */
  ghost predicate KeepsCommitted(env: (nat, Db) -> Db) {
    forall k: nat, db: Db :: Committed(db) ==> Committed(env(k, db))
  }

  lemma CancelIsARun(db: Db, c: nat, wall: Time)
    requires Committed(db) && c in db.calls
    ensures ForeignKeys(db) && Committed(TxCancel(db, c, wall))
  {
    hide Reachable, Inv, TxCancel;
    var w: World :| Reachable(w) && w.db == db;
    ReachableHasInv(w);
    InvIsShaped(w);
    StepIsReachable(w, Cancel(c, wall));
    assert Do(w, Cancel(c, wall)).db == TxCancel(db, c, wall);
  }

  lemma {:induction false} SweepIsARun(db: Db, rows: seq<nat>, n: nat, wall: Time, env: (nat, Db) -> Db, campaign: nat)
    requires Committed(db) && KeepsCommitted(env) && n <= |rows|
    ensures Committed(Swept(db, rows, n, wall, env, campaign).0)
    decreases n
  {
    hide Committed, TxCancel, ForeignKeys;
    if n > 0 {
      SweepIsARun(db, rows, n - 1, wall, env, campaign);
      var mid := env(n - 1, Swept(db, rows, n - 1, wall, env, campaign).0);
      assert Committed(mid);
      if rows[n - 1] in mid.calls {
        CancelIsARun(mid, rows[n - 1], wall);
      }
    }
  }

  // ---- a batch of allocations

  /** The k-th transaction of a batch as a step of the protocol. */
  ghost function StepOf(b: Batch, mid: Db, t: Turn, k: nat, plan: Plan): Step
    requires t.Last? ==> t.index in b.placing
  {
    match t
    case First(i) => Place(plan.campaign, plan.choose(k, mid), plan.lease, plan.wall)
    case Last(i) =>
      var answer := plan.answer(k, mid);
      if answer.None? then Reject(b.placing[i].call, plan.wall)
      else Initiate(b.placing[i].call, answer.value, plan.dialLease, plan.wall)
  }

  /** The k-th transaction can be taken in w: a last one has a call, and its worker is in time. */
  ghost predicate TurnOk(w: World, b: Batch, t: Turn) {
    t.Last? ==> t.index in b.placing && Timely(w, b.placing[t.index].call)
  }

  ghost function AfterTurn(w: World, b: Batch, t: Turn, k: nat, plan: Plan): World
    requires TurnOk(w, b, t)
  {
    var s := StepOf(b, w.db, t, k, plan);
    if Shaped(w) && Enabled(w, s) then Do(w, s) else w
  }

  /** `worlds[k]` is the state the k-th transaction finds: others led there from what the transaction
      before it left, and committed what the plan says. */
  ghost predicate Carries(v: World, turns: seq<Turn>, plan: Plan, worlds: seq<World>)
    decreases |turns|, 0
  {
    && |worlds| == |turns|
    && (turns != [] ==>
      var k := |turns| - 1;
      var b := Batched(v.db, turns[..k], plan);
      && Carries(v, turns[..k], plan, worlds[..k]) && Leads(LeftBy(v, turns[..k], plan, worlds[..k]), worlds[k])
      && worlds[k].db == plan.env(k, b.db) && TurnOk(worlds[k], b, turns[k]))
  }

  /** The state after these transactions. */
  ghost function LeftBy(v: World, turns: seq<Turn>, plan: Plan, worlds: seq<World>): World
    requires Carries(v, turns, plan, worlds)
    decreases |turns|, 1
  {
    if turns == [] then v
    else
      var k := |turns| - 1;
      AfterTurn(worlds[k], Batched(v.db, turns[..k], plan), turns[k], k, plan)
  }

  /** What the workers of a batch remember is what the rows of their calls say. */
  ghost predicate Remembers(db: Db, placing: map<nat, Placing>) {
    forall i :: i in placing ==> placing[i].call in db.calls && placing[i] == PlacingOf(db, placing[i].call)
  }

  lemma RememberedRowsAreThere(w: World, placing: map<nat, Placing>)
    requires Shaped(w) && Remembers(w.db, placing)
    ensures Addressed(w.db, placing)
  {
  }

  lemma RunKeepsRemembers(v: World, w: World, placing: map<nat, Placing>)
    requires Leads(v, w) && Remembers(v.db, placing)
    ensures Remembers(w.db, placing)
  {
    hide CanRun, After;
    var steps :| CanRun(v, steps) && After(v, steps) == w;
    forall i | i in placing ensures placing[i].call in w.db.calls && placing[i] == PlacingOf(w.db, placing[i].call) {
      EndToEnd.RunKeepsIdentity(v, steps, placing[i].call);
    }
  }

  lemma StepKeepsRemembers(w: World, s: Step, placing: map<nat, Placing>)
    requires Shaped(w) && Enabled(w, s) && Remembers(w.db, placing)
    ensures Remembers(Do(w, s).db, placing)
  {
    hide Shaped, Enabled, Do;
    forall i | i in placing
      ensures placing[i].call in Do(w, s).db.calls && placing[i] == PlacingOf(Do(w, s).db, placing[i].call)
    {
      EndToEnd.StepKeepsIdentity(w, s, placing[i].call);
    }
  }

  lemma DoPlace(w: World, s: Step)
    requires s.Place? && Shaped(w) && Enabled(w, s)
    ensures var (made, created) := TxReserve(w.db, s.campaign, s.pick, s.lease, s.wall);
      && Do(w, s).db == made && (created.Some? ==> created.value in made.calls) && Do(w, s).now == w.now
      && if created.None? then Do(w, s).inflight == w.inflight
         else
           var k := made.calls[created.value];
           Do(w, s).inflight == w.inflight[created.value := Allocation(k.agent, k.borrower, s.lease)]
  {
  }

  /** A first transaction is a Place step. */
  lemma FirstIsAStep(w: World, b: Batch, i: nat, k: nat, plan: Plan)
    requires Inv(w) && Remembers(w.db, b.placing)
    requires PickOk(w.db, plan.campaign, plan.choose(k, w.db), plan.wall)
    ensures var (s, now) := (StepOf(b, w.db, First(i), k, plan), Begun(b, w.db, k, i, plan));
      Shaped(w) && Enabled(w, s) && Do(w, s).db == now.db && Remembers(now.db, now.placing)
  {
    hide Inv, Shaped, Do, PickOk, TxReserve, KeyAborts;
    InvIsShaped(w);
    var s := StepOf(b, w.db, First(i), k, plan);
    StepKeepsRemembers(w, s, b.placing);
    DoPlace(w, s);
  }

  lemma DoReject(w: World, s: Step)
    requires Inv(w) && s.Reject? && Shaped(w) && Enabled(w, s)
    ensures s.c in w.db.calls && w.db.calls[s.c].agent in w.db.agents && w.db.calls[s.c].borrower in w.db.borrowers
    ensures Do(w, s).db == TxReject(w.db, s.c, w.db.calls[s.c].agent, w.db.calls[s.c].borrower, s.wall)
  {
    hide Inv;
    Preservation.OnlyReservedIsInflight(w, s.c);
    assert Addressable(w, s.c);
  }

  lemma DoInitiate(w: World, s: Step)
    requires Inv(w) && s.Initiate? && Shaped(w) && Enabled(w, s)
    ensures s.c in w.db.calls && w.db.calls[s.c].agent in w.db.agents
    ensures Do(w, s).db == TxInitiate(w.db, s.c, w.db.calls[s.c].agent, s.pcid, s.dialLease, s.wall)
  {
    hide Inv;
    Preservation.OnlyReservedIsInflight(w, s.c);
    Recovery.CallIsRowOk(w, s.c);
    assert Addressable(w, s.c);
  }

  lemma FewerRemembered(db: Db, placing: map<nat, Placing>, i: nat)
    requires Remembers(db, placing)
    ensures Remembers(db, placing - {i})
  {
  }

  lemma RefusedDoes(w: World, b: Batch, i: nat, k: nat, plan: Plan)
    requires Inv(w) && Shaped(w) && i in b.placing && Addressed(w.db, b.placing)
    requires b.placing[i].call in w.db.calls && b.placing[i] == PlacingOf(w.db, b.placing[i].call)
    requires Timely(w, b.placing[i].call) && plan.answer(k, w.db).None?
    ensures var s := Reject(b.placing[i].call, plan.wall);
      Enabled(w, s) && Do(w, s).db == Finished(b, w.db, k, i, plan).db
  {
    hide Inv, Shaped, Do, Addressed, TxReject, Timely;
    DoReject(w, Reject(b.placing[i].call, plan.wall));
  }

  lemma AcceptedDoes(w: World, b: Batch, i: nat, k: nat, plan: Plan)
    requires Inv(w) && Shaped(w) && i in b.placing && Addressed(w.db, b.placing)
    requires b.placing[i].call in w.db.calls && b.placing[i] == PlacingOf(w.db, b.placing[i].call)
    requires Timely(w, b.placing[i].call) && plan.answer(k, w.db).Some?
    ensures var s := Initiate(b.placing[i].call, plan.answer(k, w.db).value, plan.dialLease, plan.wall);
      Enabled(w, s) && Do(w, s).db == Finished(b, w.db, k, i, plan).db
  {
    hide Inv, Shaped, Do, Addressed, TxInitiate, ReferenceAborts, Timely;
    DoInitiate(w, Initiate(b.placing[i].call, plan.answer(k, w.db).value, plan.dialLease, plan.wall));
  }

  lemma FinishedIsNotPlacing(b: Batch, mid: Db, k: nat, i: nat, plan: Plan)
    requires i in b.placing && Addressed(mid, b.placing)
    ensures Finished(b, mid, k, i, plan).placing == b.placing - {i}
  {
    hide TxReject, TxInitiate, ReferenceAborts;
  }

  /** A timely last transaction is a Reject or an Initiate step. */
  lemma LastIsAStep(w: World, b: Batch, i: nat, k: nat, plan: Plan)
    requires Inv(w) && Remembers(w.db, b.placing) && TurnOk(w, b, Last(i))
    ensures Addressed(w.db, b.placing)
    ensures var (s, now) := (StepOf(b, w.db, Last(i), k, plan), Finished(b, w.db, k, i, plan));
      Shaped(w) && Enabled(w, s) && Do(w, s).db == now.db && Remembers(now.db, now.placing)
  {
    hide Inv, Shaped, Do, Finished, Addressed, Enabled, Timely;
    InvIsShaped(w);
    RememberedRowsAreThere(w, b.placing);
    FinishedIsNotPlacing(b, w.db, k, i, plan);
    var s := StepOf(b, w.db, Last(i), k, plan);
    if plan.answer(k, w.db).None? {
      RefusedDoes(w, b, i, k, plan);
    } else {
      AcceptedDoes(w, b, i, k, plan);
    }
    hide Remembers;
    StepKeepsRemembers(w, s, b.placing);
    FewerRemembered(Do(w, s).db, b.placing, i);
  }

  lemma TurnIsAStep(w: World, b: Batch, t: Turn, k: nat, plan: Plan)
    requires Inv(w) && Fair(plan) && TurnOk(w, b, t) && w.db == plan.env(k, b.db) && Remembers(w.db, b.placing)
    ensures var now := Turned(b, t, k, plan);
      && Shaped(w) && Enabled(w, StepOf(b, w.db, t, k, plan))
      && Do(w, StepOf(b, w.db, t, k, plan)).db == now.db && Remembers(now.db, now.placing)
  {
    hide Inv, Shaped, Enabled, Do, StepOf, PickOk, Begun, Finished, Remembers, Addressed;
    match t
    case First(i) =>
      assert PickOk(w.db, plan.campaign, plan.choose(k, w.db), plan.wall);
      FirstIsAStep(w, b, i, k, plan);
    case Last(i) => LastIsAStep(w, b, i, k, plan);
  }

  /** A batch whose workers are in time is a run: it ends in a reachable state, with the tables it computes. */
  lemma {:induction false} BatchIsARun(v: World, turns: seq<Turn>, plan: Plan, worlds: seq<World>)
    requires Reachable(v) && Fair(plan) && Carries(v, turns, plan, worlds)
    ensures var (w, b) := (LeftBy(v, turns, plan, worlds), Batched(v.db, turns, plan));
      Reachable(w) && w.db == b.db && Remembers(w.db, b.placing)
    decreases |turns|
  {
    if turns != [] {
      hide Reachable, Leads, Fair, Turned, Remembers, TurnOk, StepOf, Inv, Shaped, Enabled, Do;
      var k := |turns| - 1;
      var b := Batched(v.db, turns[..k], plan);
      BatchIsARun(v, turns[..k], plan, worlds[..k]);
      var u := LeftBy(v, turns[..k], plan, worlds[..k]);
      WhatItLeadsToIsReachable(u, worlds[k]);
      RunKeepsRemembers(u, worlds[k], b.placing);
      ReachableHasInv(worlds[k]);
      TurnIsAStep(worlds[k], b, turns[k], k, plan);
      StepIsReachable(worlds[k], StepOf(b, worlds[k].db, turns[k], k, plan));
    }
  }

  /** In a coherent world a first transaction raises exactly if it has all it needs and a call of its
      borrower is live. */
  lemma FirstRaisesIff(w: World, campaign: nat, pick: Pick, lease: Time, wall: Time)
    requires Inv(w) && PickOk(w.db, campaign, pick, wall)
    ensures KeyAborts(w.db, campaign, pick, lease, wall) <==>
      && pick.agent.Some? && w.db.agents[pick.agent.value].version == pick.version
      && pick.borrower.Some? && pick.provider.Some? && Preservation.HasLiveCall(w.db, pick.borrower.value)
  {
    hide Inv, KeyTaken, Preservation.HasLiveCall;
    if pick.borrower.Some? {
      Preservation.NextKeyTakenIffLive(w, pick.borrower.value);
    }
  }

  /** A timely last one raises exactly if another call has the provider's reference. */
  lemma LastRaisesIff(w: World, c: nat, pcid: string)
    requires Inv(w) && Shaped(w) && Timely(w, c)
    ensures c in w.db.calls
    ensures ReferenceAborts(w.db, c, pcid) <==>
      exists d :: d in w.db.calls && d != c && w.db.calls[d].provider == w.db.calls[c].provider
                  && w.db.calls[d].pcid == Some(pcid)
  {
    hide Inv, Shaped;
    Effects.TimelyIsReserved(w, c);
  }

  // ---- a batch alone, whose workers are in time

  /** Each allocation of the batch is in progress, with a call of its own. */
  ghost predicate Held(w: World, placing: map<nat, Placing>, lease: Time) {
    && (forall i :: i in placing ==> placing[i].call in w.inflight && w.inflight[placing[i].call].lease == lease)
    && forall i, j :: i in placing && j in placing && i != j ==> placing[i].call != placing[j].call
  }

  lemma FirstHolds(w: World, b: Batch, i: nat, k: nat, plan: Plan)
    requires PickOk(w.db, plan.campaign, plan.choose(k, w.db), plan.wall) && Shaped(w)
    requires Held(w, b.placing, plan.lease)
    ensures var v := Do(w, StepOf(b, w.db, First(i), k, plan));
      v.now == w.now && Held(v, Begun(b, w.db, k, i, plan).placing, plan.lease)
  {
    hide ForeignKeys, PickOk, TxReserve, KeyAborts, Do;
    DoPlace(w, StepOf(b, w.db, First(i), k, plan));
    CreatedCallHasItsRows(w.db, plan.campaign, plan.choose(k, w.db), plan.lease, plan.wall);
    assert forall j :: j in b.placing ==> b.placing[j].call in w.db.calls;
  }

  lemma DoLast(w: World, s: Step)
    requires (s.Reject? || s.Initiate?) && Shaped(w) && Enabled(w, s)
    ensures Do(w, s).now == w.now && Do(w, s).inflight == w.inflight - {s.c}
  {
    hide TxReject, TxInitiate;
    assert Addressable(w, s.c);
  }

  lemma LastHolds(w: World, b: Batch, i: nat, k: nat, plan: Plan)
    requires Shaped(w) && i in b.placing && Held(w, b.placing, plan.lease)
    requires Enabled(w, StepOf(b, w.db, Last(i), k, plan))
    ensures var v := Do(w, StepOf(b, w.db, Last(i), k, plan));
      v.now == w.now && Held(v, b.placing - {i}, plan.lease)
  {
    hide Shaped, Enabled, Do;
    DoLast(w, StepOf(b, w.db, Last(i), k, plan));
  }

  lemma CarriedOn(v: World, turns: seq<Turn>, plan: Plan, worlds: seq<World>)
    requires turns != []
    requires var k := |turns| - 1;
      && Carries(v, turns[..k], plan, worlds)
      && var (w, b) := (LeftBy(v, turns[..k], plan, worlds), Batched(v.db, turns[..k], plan));
      && w.db == plan.env(k, b.db) && TurnOk(w, b, turns[k])
      && Shaped(w) && Enabled(w, StepOf(b, w.db, turns[k], k, plan))
    ensures var k := |turns| - 1;
      var (w, b) := (LeftBy(v, turns[..k], plan, worlds), Batched(v.db, turns[..k], plan));
      && Carries(v, turns, plan, worlds + [w])
      && LeftBy(v, turns, plan, worlds + [w]) == Do(w, StepOf(b, w.db, turns[k], k, plan))
  {
    hide Batched, Leads, TurnOk, Shaped, Enabled, Do, StepOf;
    var k := |turns| - 1;
    var w := LeftBy(v, turns[..k], plan, worlds);
    LeadsToItself(w);
    assert (worlds + [w])[..k] == worlds;
  }

  /** Undisturbed, before its reserve leases have passed, any schedule of a batch can be taken. */
  lemma {:induction false} UndisturbedBatchIsCarried(v: World, turns: seq<Turn>, plan: Plan)
      returns (worlds: seq<World>)
    requires Reachable(v) && Fair(plan) && Undisturbed(plan.env) && v.now <= plan.lease
    requires LastsWerePlacing(v.db, turns, plan)
    ensures Carries(v, turns, plan, worlds)
    ensures var w := LeftBy(v, turns, plan, worlds);
      w.now == v.now && Held(w, Batched(v.db, turns, plan).placing, plan.lease)
    decreases |turns|
  {
    worlds := [];
    if turns != [] {
      hide Reachable, Inv, Shaped, Enabled, Do, StepOf, Fair, Turned, Remembers, Held, TurnOk, AfterTurn;
      hide LastsWerePlacing;
      var k := |turns| - 1;
      var b := Batched(v.db, turns[..k], plan);
      LastsOfPrefix(v.db, turns, plan, k);
      var before := UndisturbedBatchIsCarried(v, turns[..k], plan);
      var w := LeftBy(v, turns[..k], plan, before);
      BatchIsARun(v, turns[..k], plan, before);
      HeldIsInTime(w, b, turns[k], plan.lease);
      ReachableHasInv(w);
      TurnIsAStep(w, b, turns[k], k, plan);
      TurnHolds(w, b, turns[k], k, plan);
      hide Carries, LeftBy;
      CarriedOn(v, turns, plan, before);
      worlds := before + [w];
    }
  }

  lemma LastsOfPrefix(db: Db, turns: seq<Turn>, plan: Plan, k: nat)
    requires LastsWerePlacing(db, turns, plan) && k < |turns|
    ensures LastsWerePlacing(db, turns[..k], plan)
    ensures turns[k].Last? ==> turns[k].index in Batched(db, turns[..k], plan).placing
  {
    hide Batched;
    forall l | 0 <= l < k && turns[l].Last? ensures turns[l].index in Batched(db, turns[..k][..l], plan).placing {
      assert turns[..k][..l] == turns[..l];
    }
  }

  lemma LeadsToItself(w: World)
    ensures Leads(w, w)
  {
    assert CanRun(w, []) && After(w, []) == w;
  }

  lemma HeldIsInTime(w: World, b: Batch, t: Turn, lease: Time)
    requires Held(w, b.placing, lease) && w.now <= lease && (t.Last? ==> t.index in b.placing)
    ensures TurnOk(w, b, t)
  {
  }

  lemma TurnHolds(w: World, b: Batch, t: Turn, k: nat, plan: Plan)
    requires Fair(plan) && w.db == plan.env(k, b.db) && TurnOk(w, b, t)
    requires Shaped(w) && Enabled(w, StepOf(b, w.db, t, k, plan))
    requires Held(w, b.placing, plan.lease) && Remembers(w.db, b.placing)
    ensures var u := Do(w, StepOf(b, w.db, t, k, plan));
      u.now == w.now && Held(u, Turned(b, t, k, plan).placing, plan.lease)
  {
    hide Shaped, Enabled, Do, StepOf, PickOk, Begun, Finished, Remembers, Addressed, Held;
    match t
    case First(i) =>
      assert PickOk(w.db, plan.campaign, plan.choose(k, w.db), plan.wall);
      FirstHolds(w, b, i, k, plan);
    case Last(i) =>
      RememberedRowsAreThere(w, b.placing);
      FinishedIsNotPlacing(b, w.db, k, i, plan);
      LastHolds(w, b, i, k, plan);
  }

  // ---- a tick

  /** A tick, from the reachable state it finds after its snapshot, ends in the tables of one: agents and
      calls correspond again. */
  lemma TickIsARun(w: World, after: Db, plan: Plan, m: Safety.Metrics, l: Safety.Limits, approved: int, placed: nat,
                   cancelled: nat, raised: bool, turns: seq<Turn>, rows: seq<nat>, worlds: seq<World>)
    requires Reachable(w) && Fair(plan)
    requires PacingLoop.Ticked(w.db, after, plan, m, l, approved, placed, cancelled, raised, turns, rows)
    requires if approved > 0 then Carries(w, turns, plan, worlds) else KeepsCommitted(plan.env)
    ensures Committed(after) && Laws.Corresponds(after)
  {
    hide Reachable, Fair, Carries, KeepsCommitted, IsSchedule, Batched, Swept, Laws.Corresponds;
    if approved > 0 {
      BatchIsARun(w, turns, plan, worlds);
    } else if m.ringing > PacingLoop.AllowedRinging(m, l) {
      SweepIsARun(w.db, rows, |rows|, plan.wall, plan.env, plan.campaign);
    }
    var v: World :| Reachable(v) && v.db == after;
    Laws.AgentsAndCallsCorrespond(v);
  }
}
