/** Allocations as functions on the tables: one alone, and any number at once
    (src/smartdialer/allocator/allocator.py). */
module Allocations {
  import opened Domain
  import opened Rows
  import opened Transactions
  import opened Counters
  import Keys
  import Pullback
  import Sizes

  /** Transaction 1 runs into the UNIQUE idempotency key, which raises out of it. */
  predicate KeyAborts(db: Db, campaign: nat, pick: Pick, lease: Time, wall: Time)
    requires PickOk(db, campaign, pick, wall)
  {
    && pick.agent.Some? && ReserveCas(db.agents[pick.agent.value], pick.version, lease).Some?
    && pick.borrower.Some? && pick.provider.Some?
    && var b := pick.borrower.value;
    KeyTaken(db, Keys.KeyOf(campaign, b, db.borrowers[b].attempts + 1))
  }

  /** Transaction 3 runs into the unique provider reference, which raises out of it. */
  predicate ReferenceAborts(db: Db, c: nat, pcid: string)
    requires c in db.calls
  {
    && db.calls[c].rank < Rank(CallState.Initiated) && (db.calls[c].pcid.None? || db.calls[c].pcid == Some(pcid))
    && RefTaken(db, c, db.calls[c].provider, pcid)
  }

  // ---- one allocation

  predicate UnusedRef(db: Db, pcid: string) { forall c :: c in db.calls ==> db.calls[c].pcid != Some(pcid) }

  lemma CreatedCallHasItsRows(db: Db, campaign: nat, pick: Pick, lease: Time, wall: Time)
    requires ForeignKeys(db) && PickOk(db, campaign, pick, wall)
    ensures var (made, created) := TxReserve(db, campaign, pick, lease, wall);
      created.Some? ==>
        && created.value in made.calls && created.value !in db.calls
        && made.calls == db.calls[created.value := made.calls[created.value]]
        && made.calls[created.value].agent in made.agents && made.calls[created.value].borrower in made.borrowers
        && made.calls[created.value].agent in db.agents
  {
    hide KeyTaken;
  }

  /** The three transactions of one allocation with nothing in between. */
  function Allocated(db: Db, campaign: nat, pick: Pick, lease: Time, dialLease: Time, answer: Option<string>,
                     wall: Time): (Db, bool)
    requires ForeignKeys(db) && PickOk(db, campaign, pick, wall)
  {
    CreatedCallHasItsRows(db, campaign, pick, lease, wall);
    var (made, created) := TxReserve(db, campaign, pick, lease, wall);
    if created.None? then (made, false) else
    var k := made.calls[created.value];
    if answer.None? then (TxReject(made, created.value, k.agent, k.borrower, wall), false)
    else (TxInitiate(made, created.value, k.agent, answer.value, dialLease, wall),
          !ReferenceAborts(made, created.value, answer.value))
  }

  /** Of the agents and calls, an allocation writes one row each. */
  predicate WroteOne(db: Db, after: Db, a: nat, c: nat, campaign: nat, ok: bool) {
    && a in after.agents && after.agents == db.agents[a := after.agents[a]]
    && after.agents[a].campaign == campaign && (after.agents[a].state.Available? <==> !ok)
    && if c in after.calls
       then after.calls == db.calls[c := after.calls[c]] && after.calls[c].campaign == campaign
            && (Unanswered(after.calls[c]) <==> ok)
       else after.calls == db.calls && !ok
  }

  lemma ReservedRows(db: Db, campaign: nat, pick: Pick, lease: Time, wall: Time)
    requires ForeignKeys(db) && PickOk(db, campaign, pick, wall) && pick.agent.Some?
    ensures var (made, created) := TxReserve(db, campaign, pick, lease, wall);
      var a := pick.agent.value;
      if created.None? then WroteOne(db, made, a, pick.call, campaign, false)
      else
        && created.value == pick.call && a in made.agents && made.agents == db.agents[a := made.agents[a]]
        && made.agents[a].campaign == campaign
        && pick.call in made.calls && made.calls == db.calls[pick.call := made.calls[pick.call]]
        && made.calls[pick.call].campaign == campaign && made.calls[pick.call].agent == a
        && made.calls[pick.call].state.Reserved? && made.calls[pick.call].rank == 1 && made.calls[pick.call].pcid.None?
  {
    hide KeyTaken;
  }

  lemma AllocatedRows(db: Db, campaign: nat, pick: Pick, lease: Time, dialLease: Time, answer: Option<string>,
                      wall: Time)
    requires ForeignKeys(db) && PickOk(db, campaign, pick, wall) && pick.agent.Some?
    requires answer.Some? ==> UnusedRef(db, answer.value)
    ensures var (after, ok) := Allocated(db, campaign, pick, lease, dialLease, answer, wall);
      WroteOne(db, after, pick.agent.value, pick.call, campaign, ok)
  {
    ReservedRows(db, campaign, pick, lease, wall);
    var (made, created) := TxReserve(db, campaign, pick, lease, wall);
    hide TxReserve, PickOk, ForeignKeys, Reschedule;
    if created.Some? && answer.Some? {
      assert !RefTaken(made, created.value, made.calls[created.value].provider, answer.value);
    }
  }

  /** A successful allocation takes one available agent and sets one call ringing; any other leaves both
      counts as they were. */
  lemma AllocatedCounts(db: Db, campaign: nat, pick: Pick, lease: Time, dialLease: Time, answer: Option<string>,
                        wall: Time)
    requires ForeignKeys(db) && PickOk(db, campaign, pick, wall)
    requires answer.Some? ==> UnusedRef(db, answer.value)
    ensures var (after, ok) := Allocated(db, campaign, pick, lease, dialLease, answer, wall);
      && |CallsRinging(after.calls, campaign)| == |CallsRinging(db.calls, campaign)| + Bit(ok)
      && |AgentsAt(after.agents, campaign, AgentState.Available)|
         == |AgentsAt(db.agents, campaign, AgentState.Available)| - Bit(ok)
  {
    hide AgentsAt, CallsRinging, UnusedRef;
    if pick.agent.Some? {
      AllocatedRows(db, campaign, pick, lease, dialLease, answer, wall);
      var (after, ok) := Allocated(db, campaign, pick, lease, dialLease, answer, wall);
      hide Allocated, ForeignKeys;
      var a, c := pick.agent.value, pick.call;
      AgentCountAfter(db.agents, a, after.agents[a], campaign, AgentState.Available);
      if c in after.calls {
        RingingCountAfter(db.calls, c, after.calls[c], campaign);
      }
    }
  }

  // ---- a batch of concurrent allocations

  datatype Outcome = Placed | Refused | Raised

  /** An allocation between its first and its last transaction: the rows its worker remembers. */
  datatype Placing = Placing(call: nat, agent: nat, borrower: nat)

  function PlacingOf(db: Db, c: nat): Placing
    requires c in db.calls
  {
    Placing(c, db.calls[c].agent, db.calls[c].borrower)
  }

  predicate Addressed(db: Db, placing: map<nat, Placing>) {
    forall i :: i in placing ==>
      placing[i].call in db.calls && placing[i].agent in db.agents && placing[i].borrower in db.borrowers
  }

  predicate SameRows(db: Db, after: Db) {
    && after.calls.Keys == db.calls.Keys && after.agents.Keys == db.agents.Keys
    && after.borrowers.Keys == db.borrowers.Keys
  }

  lemma OutcomesKeepKeys(db: Db, p: Placing, answer: Option<string>, dialLease: Time, wall: Time)
    requires p.call in db.calls && p.agent in db.agents && p.borrower in db.borrowers
    ensures SameRows(db, TxReject(db, p.call, p.agent, p.borrower, wall))
    ensures answer.Some? ==> SameRows(db, TxInitiate(db, p.call, p.agent, answer.value, dialLease, wall))
  {
  }

  lemma ReserveAddsRows(db: Db, campaign: nat, pick: Pick, lease: Time, wall: Time)
    requires ForeignKeys(db) && PickOk(db, campaign, pick, wall)
    ensures var (made, created) := TxReserve(db, campaign, pick, lease, wall);
      && db.calls.Keys <= made.calls.Keys && db.agents.Keys <= made.agents.Keys
      && db.borrowers.Keys <= made.borrowers.Keys
    ensures var (made, created) := TxReserve(db, campaign, pick, lease, wall);
      created.Some? ==>
        && created.value in made.calls
        && made.calls[created.value].agent in made.agents && made.calls[created.value].borrower in made.borrowers
  {
    hide KeyTaken;
  }

  // ---- whatever interferes, each allocation sets at most its own call ringing

  lemma QuietDoesNotRing(before: map<nat, Call>, after: map<nat, Call>, campaign: nat)
    requires forall c :: Pullback.NoRing(before, after, c)
    ensures |CallsRinging(after, campaign)| <= |CallsRinging(before, campaign)|
  {
    forall c | c in CallsRinging(after, campaign) ensures c in CallsRinging(before, campaign) {
      assert Pullback.NoRing(before, after, c);
    }
    Sizes.SubsetSize(CallsRinging(after, campaign), CallsRinging(before, campaign));
  }

  lemma ReserveDoesNotRing(db: Db, campaign: nat, pick: Pick, lease: Time, wall: Time)
    requires PickOk(db, campaign, pick, wall)
    ensures forall c :: Pullback.NoRing(db.calls, TxReserve(db, campaign, pick, lease, wall).0.calls, c)
  {
    hide KeyTaken;
  }

  lemma RejectDoesNotRing(db: Db, p: Placing, wall: Time)
    requires p.call in db.calls && p.agent in db.agents && p.borrower in db.borrowers
    ensures forall c :: Pullback.NoRing(db.calls, TxReject(db, p.call, p.agent, p.borrower, wall).calls, c)
  {
  }

  lemma InitiateRingsOne(db: Db, p: Placing, pcid: string, dialLease: Time, wall: Time, campaign: nat)
    requires p.call in db.calls && p.agent in db.agents
    ensures |CallsRinging(TxInitiate(db, p.call, p.agent, pcid, dialLease, wall).calls, campaign)|
            <= |CallsRinging(db.calls, campaign)| + 1
  {
    var after := TxInitiate(db, p.call, p.agent, pcid, dialLease, wall).calls;
    hide RefTaken;
    assert after == db.calls[p.call := after[p.call]];
    RingingCountAfter(db.calls, p.call, after[p.call], campaign);
  }

  // ---- undisturbed, the books balance

  /** Nobody has touched the rows of this allocation since it was reserved. */
  predicate Untouched(db: Db, p: Placing, campaign: nat) {
    && p.call in db.calls && db.calls[p.call].state.Reserved? && db.calls[p.call].rank == 1
    && db.calls[p.call].pcid.None? && db.calls[p.call].campaign == campaign
    && p.agent in db.agents && db.agents[p.agent].state.Reserved? && db.agents[p.agent].campaign == campaign
  }

  predicate Apart(placing: map<nat, Placing>) {
    forall i, j :: i in placing && j in placing && i != j ==>
      placing[i].call != placing[j].call && placing[i].agent != placing[j].agent
  }

  ghost predicate BatchAt(start: Db, db: Db, campaign: nat, placing: map<nat, Placing>, placed: nat) {
    && Apart(placing) && (forall i :: i in placing ==> Untouched(db, placing[i], campaign))
    && |CallsRinging(db.calls, campaign)| == |CallsRinging(start.calls, campaign)| + placed
    && |AgentsAt(db.agents, campaign, AgentState.Available)|
       == |AgentsAt(start.agents, campaign, AgentState.Available)| - placed - |placing.Keys|
  }

  /** One agent row and one call row move, neither of them another allocation's. */
  lemma OthersUntouched(db: Db, after: Db, campaign: nat, placing: map<nat, Placing>, a: nat, c: nat)
    requires forall i :: i in placing ==>
      Untouched(db, placing[i], campaign) && placing[i].agent != a && placing[i].call != c
    requires forall x :: x in db.agents && x != a ==> x in after.agents && after.agents[x] == db.agents[x]
    requires forall x :: x in db.calls && x != c ==> x in after.calls && after.calls[x] == db.calls[x]
    ensures forall i :: i in placing ==> Untouched(after, placing[i], campaign)
  {
  }

  lemma IdleAgentIsNobodys(db: Db, campaign: nat, placing: map<nat, Placing>, a: nat, c: nat)
    requires forall i :: i in placing ==> Untouched(db, placing[i], campaign)
    requires a in db.agents && db.agents[a].state.Available? && c !in db.calls
    ensures forall i :: i in placing ==> placing[i].agent != a && placing[i].call != c
  {
  }

  lemma FailedReserveKeepsBatch(start: Db, db: Db, made: Db, campaign: nat, placing: map<nat, Placing>, placed: nat,
                                a: nat, c: nat)
    requires BatchAt(start, db, campaign, placing, placed) && WroteOne(db, made, a, c, campaign, false)
    requires a in db.agents && db.agents[a].state.Available? && db.agents[a].campaign == campaign && c !in db.calls
    ensures BatchAt(start, made, campaign, placing, placed)
  {
    IdleAgentIsNobodys(db, campaign, placing, a, c);
    OthersUntouched(db, made, campaign, placing, a, c);
    hide Apart, Untouched, AgentsAt, CallsRinging;
    AgentCountAfter(db.agents, a, made.agents[a], campaign, AgentState.Available);
    if c in made.calls {
      RingingCountAfter(db.calls, c, made.calls[c], campaign);
    }
  }

  lemma HeldReserveKeepsBatch(start: Db, db: Db, made: Db, campaign: nat, placing: map<nat, Placing>, i: nat,
                              placed: nat, p: Placing)
    requires BatchAt(start, db, campaign, placing, placed) && i !in placing && Untouched(made, p, campaign)
    requires p.agent in db.agents && db.agents[p.agent].state.Available? && db.agents[p.agent].campaign == campaign
    requires p.call !in db.calls && made.agents == db.agents[p.agent := made.agents[p.agent]]
    requires made.calls == db.calls[p.call := made.calls[p.call]]
    ensures BatchAt(start, made, campaign, placing[i := p], placed)
  {
    IdleAgentIsNobodys(db, campaign, placing, p.agent, p.call);
    OthersUntouched(db, made, campaign, placing, p.agent, p.call);
    OneMore(placing, i, p);
    CountsAfter(db, made, p, campaign);
    hide AgentsAt, CallsRinging, Apart;
  }

  lemma OneMore(placing: map<nat, Placing>, i: nat, p: Placing)
    requires i !in placing && Apart(placing)
    requires forall j :: j in placing ==> placing[j].agent != p.agent && placing[j].call != p.call
    ensures Apart(placing[i := p]) && |placing[i := p].Keys| == |placing.Keys| + 1
  {
    assert placing[i := p].Keys == placing.Keys + {i};
  }

  /** How the two counts move when only p's rows do. */
  lemma CountsAfter(db: Db, after: Db, p: Placing, campaign: nat)
    requires p.agent in after.agents && after.agents == db.agents[p.agent := after.agents[p.agent]]
    requires p.call in after.calls && after.calls == db.calls[p.call := after.calls[p.call]]
    requires after.agents[p.agent].campaign == campaign && after.calls[p.call].campaign == campaign
    requires p.agent in db.agents ==> db.agents[p.agent].campaign == campaign
    requires p.call in db.calls ==> db.calls[p.call].campaign == campaign
    ensures |CallsRinging(after.calls, campaign)|
            == |CallsRinging(db.calls, campaign)| + Bit(Unanswered(after.calls[p.call]))
               - Bit(p.call in db.calls && Unanswered(db.calls[p.call]))
    ensures |AgentsAt(after.agents, campaign, AgentState.Available)|
            == |AgentsAt(db.agents, campaign, AgentState.Available)|
               + Bit(after.agents[p.agent].state.Available?)
               - Bit(p.agent in db.agents && db.agents[p.agent].state.Available?)
  {
    hide AgentsAt, CallsRinging;
    AgentCountAfter(db.agents, p.agent, after.agents[p.agent], campaign, AgentState.Available);
    RingingCountAfter(db.calls, p.call, after.calls[p.call], campaign);
  }

  lemma ReserveKeepsBatch(start: Db, db: Db, campaign: nat, pick: Pick, lease: Time, wall: Time,
                          placing: map<nat, Placing>, i: nat, placed: nat)
    requires ForeignKeys(db) && PickOk(db, campaign, pick, wall) && i !in placing
    requires BatchAt(start, db, campaign, placing, placed)
    ensures var (made, created) := TxReserve(db, campaign, pick, lease, wall);
      if created.None? then BatchAt(start, made, campaign, placing, placed)
      else
        && created.value in made.calls
        && BatchAt(start, made, campaign, placing[i := PlacingOf(made, created.value)], placed)
  {
    if pick.agent.Some? {
      var (made, created) := TxReserve(db, campaign, pick, lease, wall);
      var a, c := pick.agent.value, pick.call;
      ReservedRows(db, campaign, pick, lease, wall);
      hide BatchAt, TxReserve, WroteOne, ForeignKeys;
      if created.None? {
        FailedReserveKeepsBatch(start, db, made, campaign, placing, placed, a, c);
      } else {
        HeldReserveKeepsBatch(start, db, made, campaign, placing, i, placed, PlacingOf(made, c));
      }
    }
  }

  lemma OneFewer(placing: map<nat, Placing>, i: nat)
    requires i in placing && Apart(placing)
    ensures Apart(placing - {i}) && |(placing - {i}).Keys| == |placing.Keys| - 1
    ensures forall j :: j in placing - {i} ==>
      placing[j].agent != placing[i].agent && placing[j].call != placing[i].call
  {
    assert (placing - {i}).Keys == placing.Keys - {i};
  }

  /** An allocation ends: its agent is free again, or its call rings. */
  lemma EndKeepsBatch(start: Db, db: Db, after: Db, campaign: nat, placing: map<nat, Placing>, i: nat, placed: nat,
                      ok: bool)
    requires i in placing && BatchAt(start, db, campaign, placing, placed)
    requires WroteOne(db, after, placing[i].agent, placing[i].call, campaign, ok) && placing[i].call in after.calls
    ensures BatchAt(start, after, campaign, placing - {i}, if ok then placed + 1 else placed)
  {
    hide AgentsAt, CallsRinging;
    var p := placing[i];
    assert Untouched(db, p, campaign);
    OneFewer(placing, i);
    OthersUntouched(db, after, campaign, placing - {i}, p.agent, p.call);
    CountsAfter(db, after, p, campaign);
    hide Apart, Untouched;
  }

  lemma RejectWroteOne(db: Db, p: Placing, campaign: nat, wall: Time)
    requires Untouched(db, p, campaign) && p.borrower in db.borrowers
    ensures var after := TxReject(db, p.call, p.agent, p.borrower, wall);
      WroteOne(db, after, p.agent, p.call, campaign, false) && p.call in after.calls
  {
    hide Reschedule;
  }

  lemma InitiateWroteOne(db: Db, p: Placing, campaign: nat, pcid: string, dialLease: Time, wall: Time)
    requires Untouched(db, p, campaign) && UnusedRef(db, pcid)
    ensures !ReferenceAborts(db, p.call, pcid)
    ensures var after := TxInitiate(db, p.call, p.agent, pcid, dialLease, wall);
      WroteOne(db, after, p.agent, p.call, campaign, true) && p.call in after.calls
  {
    assert !RefTaken(db, p.call, db.calls[p.call].provider, pcid);
    hide RefTaken;
  }

  // ---- the batch as a whole

  /** What the batch relies on and promises between two of its transactions. */
  ghost predicate BatchOk(start: Db, db: Db, campaign: nat, placing: map<nat, Placing>, placed: nat, quiet: bool) {
    && Addressed(db, placing)
    && |CallsRinging(db.calls, campaign)| <= |CallsRinging(start.calls, campaign)| + placed
    && (quiet ==> BatchAt(start, db, campaign, placing, placed))
  }

  lemma BatchBegins(db: Db, campaign: nat, quiet: bool)
    ensures BatchOk(db, db, campaign, map[], 0, quiet)
  {
    hide CallsRinging, AgentsAt;
  }

  lemma GapKeepsBatch(start: Db, db: Db, after: Db, campaign: nat, placing: map<nat, Placing>, placed: nat, quiet: bool)
    requires BatchOk(start, db, campaign, placing, placed, quiet) && (quiet ==> after == db)
    requires db.calls.Keys <= after.calls.Keys && db.agents.Keys <= after.agents.Keys
    requires db.borrowers.Keys <= after.borrowers.Keys
    requires forall c :: Pullback.NoRing(db.calls, after.calls, c)
    ensures BatchOk(start, after, campaign, placing, placed, quiet)
  {
    hide CallsRinging, BatchAt;
    QuietDoesNotRing(db.calls, after.calls, campaign);
  }

  lemma FirstTransaction(start: Db, db: Db, campaign: nat, pick: Pick, lease: Time, wall: Time,
                         placing: map<nat, Placing>, i: nat, placed: nat, quiet: bool)
    requires ForeignKeys(db) && PickOk(db, campaign, pick, wall) && i !in placing
    requires BatchOk(start, db, campaign, placing, placed, quiet)
    ensures var (made, created) := TxReserve(db, campaign, pick, lease, wall);
      if created.None? then BatchOk(start, made, campaign, placing, placed, quiet)
      else
        && created.value in made.calls
        && BatchOk(start, made, campaign, placing[i := PlacingOf(made, created.value)], placed, quiet)
  {
    hide CallsRinging, BatchAt, TxReserve, PickOk;
    ReserveDoesNotRing(db, campaign, pick, lease, wall);
    ReserveAddsRows(db, campaign, pick, lease, wall);
    if quiet {
      ReserveKeepsBatch(start, db, campaign, pick, lease, wall, placing, i, placed);
    }
    QuietDoesNotRing(db.calls, TxReserve(db, campaign, pick, lease, wall).0.calls, campaign);
  }

  lemma LastTransaction(start: Db, db: Db, campaign: nat, p: Placing, answer: Option<string>, dialLease: Time,
                        wall: Time, placing: map<nat, Placing>, i: nat, placed: nat, quiet: bool)
    requires i in placing && p == placing[i] && BatchOk(start, db, campaign, placing, placed, quiet)
    requires quiet && answer.Some? ==> UnusedRef(db, answer.value)
    ensures p.call in db.calls && p.agent in db.agents && p.borrower in db.borrowers
    ensures answer.None? ==>
      BatchOk(start, TxReject(db, p.call, p.agent, p.borrower, wall), campaign, placing - {i}, placed, quiet)
    ensures answer.Some? ==>
      BatchOk(start, TxInitiate(db, p.call, p.agent, answer.value, dialLease, wall), campaign, placing - {i},
              if ReferenceAborts(db, p.call, answer.value) then placed else placed + 1, quiet)
  {
    OutcomesKeepKeys(db, p, answer, dialLease, wall);
    if answer.None? {
      RejectDoesNotRing(db, p, wall);
      if quiet {
        RejectWroteOne(db, p, campaign, wall);
      }
    } else {
      InitiateRingsOne(db, p, answer.value, dialLease, wall, campaign);
      AbortedChangesNothing(db, p.call, p.agent, answer.value, dialLease, wall);
      if quiet {
        InitiateWroteOne(db, p, campaign, answer.value, dialLease, wall);
      }
    }
    hide CallsRinging, BatchAt, TxReject, TxInitiate, WroteOne, UnusedRef, ReferenceAborts;
    if answer.None? {
      var after := TxReject(db, p.call, p.agent, p.borrower, wall);
      QuietDoesNotRing(db.calls, after.calls, campaign);
      if quiet {
        EndKeepsBatch(start, db, after, campaign, placing, i, placed, false);
      }
    } else if quiet {
      EndKeepsBatch(start, db, TxInitiate(db, p.call, p.agent, answer.value, dialLease, wall), campaign, placing, i,
                    placed, true);
    }
  }

  lemma AbortedChangesNothing(db: Db, c: nat, a: nat, pcid: string, dialLease: Time, wall: Time)
    requires c in db.calls && a in db.agents
    ensures ReferenceAborts(db, c, pcid) ==> TxInitiate(db, c, a, pcid, dialLease, wall) == db
  {
    hide RefTaken;
  }

  lemma BatchIsAddressed(start: Db, db: Db, campaign: nat, placing: map<nat, Placing>, placed: nat, quiet: bool)
    requires BatchOk(start, db, campaign, placing, placed, quiet)
    ensures Addressed(db, placing)
  {
  }

  lemma BatchIsOver(start: Db, db: Db, campaign: nat, placing: map<nat, Placing>, placed: nat, quiet: bool)
    requires BatchOk(start, db, campaign, placing, placed, quiet) && placing.Keys == {}
    ensures |CallsRinging(db.calls, campaign)| <= |CallsRinging(start.calls, campaign)| + placed
    ensures quiet ==>
      && |CallsRinging(db.calls, campaign)| == |CallsRinging(start.calls, campaign)| + placed
      && |AgentsAt(db.agents, campaign, AgentState.Available)|
         == |AgentsAt(start.agents, campaign, AgentState.Available)| - placed
  {
    hide CallsRinging, AgentsAt;
  }
}
