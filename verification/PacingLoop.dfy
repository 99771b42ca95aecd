/** One tick of the pacing loop: snapshot, decide, approve, place or pull back
    (src/smartdialer/worker/pacing_loop.py). */
module PacingLoop {
  import opened Domain
  import opened Rows
  import opened Transactions
  import opened Counters
  import Allocations
  import Database
  import opened Pacing
  import opened Safety
  import opened Schedules
  import opened Sweeps
  import World
  import Laws
  import Runs

  /** The part of a snapshot that comes from resolved calls, the campaign row and the registry. */
  datatype Stats = Stats(
    samples: int, answerRateUb: real, avgSetup: real, avgTalk: real, abandonRate: real, active: bool, health: seq<real>)

  function Count(n: int): nat { if n >= 0 then n else 0 }

  function MetricsOf(k: Counts, s: Stats): Metrics {
    Metrics(Count(k.available), Count(k.reserved), Count(k.dialing), Count(k.connected), Count(k.wrapup),
            Count(k.ringing), s.samples, s.abandonRate, s.active, s.health)
  }

  function LoadOf(k: Counts, s: Stats): Load {
    Load(Count(k.available), Count(k.talking), Count(k.ringing), s.answerRateUb, s.avgSetup, s.avgTalk)
  }

  /** The ringing calls a snapshot's staffing supports. */
  function AllowedRinging(m: Metrics, l: Limits): nat {
    if Ceiling(m, l) >= m.Inflight() then Ceiling(m, l) - m.Inflight() else 0
  }

  /** A tick that approves anything never pulls anything back: what it may place still fits under what
      may ring. */
  lemma ApprovalExcludesPullback(n: int, m: Metrics, l: Limits, left: int)
    requires 0 < Approved(n, m, l, left)
    ensures m.ringing + Approved(n, m, l, left) <= AllowedRinging(m, l)
  {
    ApprovalFitsTheCeiling(n, m, l, left);
  }

  /** `tick`, for an engine in predictive mode. Others commit after the snapshot, before each transaction of
      a placement and before each of a pullback. Whatever the request, the tick leaves at most
      `allowed_ringing` calls ringing; what it did is either a batch of the approved number of placements,
      or a sweep of the excess, or nothing. `raised`: a placement ran into a UNIQUE constraint, and its
      exception ended the tick. */
  method Tick(store: Database.Store, controller: SafetyController, s: Stats, plan: Plan)
      returns (request: nat, approved: int, placed: nat, cancelled: nat, raised: bool,
               ghost turns: seq<Turn>, ghost rows: seq<nat>)
    requires store.Valid() && Fair(plan)
    modifies store, controller
    ensures store.Valid()
    ensures var k := Naive(old(store.agents), old(store.calls), plan.campaign);
      var (m, l, left) := (MetricsOf(k, s), controller.limits, old(controller.cooldownTicksLeft));
      && request == Decide(LoadOf(k, s)) && approved == Approved(request, m, l, left)
      && controller.cooldownTicksLeft == NextLeft(m, l, left)
      && |CallsRinging(store.calls, plan.campaign)| <= AllowedRinging(m, l)
      && Ticked(plan.env(0, old(store.Tables())), store.Tables(), plan, m, l, approved, placed, cancelled, raised,
                turns, rows)
  {
    hide store.Valid, Naive, PickOk, Ceiling, CallsRinging, IsSchedule, Batched, Swept;
    var k := store.Snapshot(plan.campaign, true);
    RingingIsCounted(store.agents, store.calls, plan.campaign);
    var m := MetricsOf(k, s);
    request := Decide(LoadOf(k, s));
    EveryRuleListed();
    ghost var left := controller.cooldownTicksLeft;
    var reason;
    approved, reason := controller.Evaluate(request, m, RULES);
    placed, cancelled, raised, turns, rows := 0, 0, false, [], [];
    ghost var before := store.Tables();
    store.Interrupt(plan.env, 0);
    Allocations.QuietDoesNotRing(before.calls, store.calls, plan.campaign);
    hide Tolerable;
    if approved > 0 {
      ApprovalExcludesPullback(request, m, controller.limits, left);
      placed, raised, turns := store.AllocateBatch(approved, plan);
      if raised {
        return;
      }
    }
    var allowed := AllowedRinging(m, controller.limits);
    if m.ringing > allowed {
      cancelled, rows := store.CancelExcessRinging(plan.campaign, allowed, plan.wall, plan.env);
    }
  }

  /** What a tick did to the tables it found after its snapshot. */
  ghost predicate Ticked(start: Db, after: Db, plan: Plan, m: Metrics, l: Limits, approved: int,
                         placed: nat, cancelled: nat, raised: bool, turns: seq<Turn>, rows: seq<nat>)
  {
    if approved > 0 then
      && IsSchedule(start, turns, approved, plan) && cancelled == 0
      && Batched(start, turns, plan) == Batch(after, map[], placed, raised) && placed <= approved
    else if m.ringing > AllowedRinging(m, l) then
      && placed == 0 && !raised && Distinct(rows) && OldestFirst(start.calls, rows, plan.campaign)
      && |rows| == Selected(|CallsRinging(start.calls, plan.campaign)|, AllowedRinging(m, l))
      && (forall r :: r in rows ==> r in CallsRinging(start.calls, plan.campaign))
      && var (swept, t) := Swept(start, rows, |rows|, plan.wall, plan.env, plan.campaign);
      after == swept && cancelled == t.cancelled == t.charged
    else after == start && placed == 0 && cancelled == 0 && !raised
  }

  lemma RingingIsCounted(agents: map<nat, Agent>, calls: map<nat, Call>, campaign: nat)
    ensures Naive(agents, calls, campaign).ringing == |CallsRinging(calls, campaign)|
  {
  }

  // ---- the same over the rows

  /** The snapshot counts the campaign's agents by state, and its calls that ring or are connected. */
  lemma SnapshotCountsTheRows(agents: map<nat, Agent>, calls: map<nat, Call>, campaign: nat)
    ensures var k := Naive(agents, calls, campaign);
      && k.available == |set a | a in agents && agents[a].campaign == campaign && agents[a].state.Available?|
      && k.reserved == |set a | a in agents && agents[a].campaign == campaign && agents[a].state.Reserved?|
      && k.dialing == |set a | a in agents && agents[a].campaign == campaign && agents[a].state.Dialing?|
      && k.connected == |set a | a in agents && agents[a].campaign == campaign && agents[a].state.Connected?|
      && k.wrapup == |set a | a in agents && agents[a].campaign == campaign && agents[a].state.WrapUp?|
      && k.talking == |set c | c in calls && calls[c].campaign == campaign && calls[c].state.Connected?|
      && k.ringing == |set c | c in calls && calls[c].campaign == campaign
                               && (calls[c].state.Initiated? || calls[c].state.Ringing?)|
  {
    assert CallsRinging(calls, campaign) == set c | c in calls && calls[c].campaign == campaign
                                                    && (calls[c].state.Initiated? || calls[c].state.Ringing?);
    assert CallsTalking(calls, campaign)
           == set c | c in calls && calls[c].campaign == campaign && calls[c].state.Connected?;
    assert AgentsAt(agents, campaign, AgentState.Available)
           == set a | a in agents && agents[a].campaign == campaign && agents[a].state.Available?;
    assert AgentsAt(agents, campaign, AgentState.Reserved)
           == set a | a in agents && agents[a].campaign == campaign && agents[a].state.Reserved?;
    assert AgentsAt(agents, campaign, AgentState.Dialing)
           == set a | a in agents && agents[a].campaign == campaign && agents[a].state.Dialing?;
    assert AgentsAt(agents, campaign, AgentState.Connected)
           == set a | a in agents && agents[a].campaign == campaign && agents[a].state.Connected?;
    assert AgentsAt(agents, campaign, AgentState.WrapUp)
           == set a | a in agents && agents[a].campaign == campaign && agents[a].state.WrapUp?;
    hide AgentsAt, CallsRinging, CallsTalking;
  }

  /** The rules judge these counts, and the statistics as they came. */
  lemma RulesJudgeTheSnapshot(agents: map<nat, Agent>, calls: map<nat, Call>, campaign: nat, s: Stats)
    ensures var k := Naive(agents, calls, campaign); var m := MetricsOf(k, s);
      && (m.available, m.reserved, m.dialing, m.connected, m.wrapup, m.ringing)
         == (k.available, k.reserved, k.dialing, k.connected, k.wrapup, k.ringing)
      && (m.samples, m.abandonRate, m.active, m.health) == (s.samples, s.abandonRate, s.active, s.health)
  {
    hide AgentsAt, CallsRinging, CallsTalking;
  }

  /** What a tick requests: k more calls exactly if, at the upper bound p of the answer rate, theirs and the
      ringing calls' answers are covered by the idle agents and by those of the connected calls that come
      free in the time of a setup. */
  lemma RequestCoversTheSnapshot(agents: map<nat, Agent>, calls: map<nat, Call>, campaign: nat, s: Stats, n: nat,
                                 p: real, freeing: real)
    requires 1 <= n
    requires p == if s.answerRateUb < 0.01 then 0.01 else if s.answerRateUb > 1.0 then 1.0 else s.answerRateUb
    requires var talking := Naive(agents, calls, campaign).talking;
      if s.avgTalk > 0.0 then freeing * s.avgTalk == talking as real * s.avgSetup else freeing == 0.0
    ensures var k := Naive(agents, calls, campaign);
      p * (k.ringing + n) as real <= k.available as real + freeing <==> n <= Decide(LoadOf(k, s))
  {
    hide AgentsAt, CallsRinging, CallsTalking, Decide;
    RequestCoversItsAnswers(LoadOf(Naive(agents, calls, campaign), s), n, p, freeing);
  }

  /** What the staff supports, less the agents on their way to a call. */
  lemma AllowanceIsWhatIsLeft(m: Metrics, l: Limits, staffed: nat)
    requires staffed == m.available + m.reserved + m.dialing + m.connected + m.wrapup
    ensures AllowedRinging(m, l) == Max(0, (staffed as real * l.maxOverdialRatio).Floor - (m.reserved + m.dialing))
  {
    CeilingRoundsDown(m, l, staffed);
    hide Ceiling;
  }

  // ---- what the snapshot says in a reachable state

  /** In every reachable state the snapshot counts each ringing call's agent as dialing and each
      connected call's agent as connected, so the overdial cap charges a ringing call twice. */
  lemma RingingIsChargedTwice(w: World.World, campaign: nat, s: Stats, n: int, l: Limits, left: int)
    requires Runs.Reachable(w)
    ensures var k := Naive(w.db.agents, w.db.calls, campaign); var m := MetricsOf(k, s);
      && k.ringing == k.dialing && k.talking == k.connected
      && (0 < Approved(n, m, l, left) ==> Approved(n, m, l, left) + m.reserved + 2 * m.ringing <= Ceiling(m, l))
  {
    Laws.Conservation(w, campaign);
    hide Runs.Reachable, CallsRinging, CallsTalking, AgentsAt;
    var m := MetricsOf(Naive(w.db.agents, w.db.calls, campaign), s);
    if 0 < Approved(n, m, l, left) {
      ApprovalFitsTheCeiling(n, m, l, left);
    }
  }
}
