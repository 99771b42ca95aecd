/** The incremental counters of migrations/002_counters.sql against the GROUP BY they replace. */
module Counters {
  import opened Domain
  import opened Rows

  datatype Counts = Counts(
    available: int, reserved: int, dialing: int, connected: int, wrapup: int, ringing: int, talking: int)

  const NONE: Counts := Counts(0, 0, 0, 0, 0, 0, 0)

  function Bit(b: bool): int { if b then 1 else 0 }

  // ---- the trigger bodies

  function AgentAdded(k: Counts, s: AgentState): Counts {
    k.(available := k.available + Bit(s.Available?), reserved := k.reserved + Bit(s.Reserved?),
       dialing := k.dialing + Bit(s.Dialing?), connected := k.connected + Bit(s.Connected?),
       wrapup := k.wrapup + Bit(s.WrapUp?))
  }

  function AgentMoved(k: Counts, before: AgentState, after: AgentState): Counts {
    if before == after then k
    else k.(available := k.available + Bit(after.Available?) - Bit(before.Available?),
            reserved := k.reserved + Bit(after.Reserved?) - Bit(before.Reserved?),
            dialing := k.dialing + Bit(after.Dialing?) - Bit(before.Dialing?),
            connected := k.connected + Bit(after.Connected?) - Bit(before.Connected?),
            wrapup := k.wrapup + Bit(after.WrapUp?) - Bit(before.WrapUp?))
  }

  function CallAdded(k: Counts, s: CallState): Counts {
    k.(ringing := k.ringing + Bit(s.Initiated? || s.Ringing?), talking := k.talking + Bit(s.Connected?))
  }

  function CallMoved(k: Counts, before: CallState, after: CallState): Counts {
    if before == after then k
    else k.(ringing := k.ringing + Bit(after.Initiated? || after.Ringing?) - Bit(before.Initiated? || before.Ringing?),
            talking := k.talking + Bit(after.Connected?) - Bit(before.Connected?))
  }

  // ---- the two snapshots

  function AgentsIn(agents: map<nat, Agent>, campaign: nat, states: set<AgentState>): set<nat> {
    set a | a in agents && agents[a].campaign == campaign && agents[a].state in states
  }

  function CallsIn(calls: map<nat, Call>, campaign: nat, states: set<CallState>): set<nat> {
    set c | c in calls && calls[c].campaign == campaign && calls[c].state in states
  }

  function AgentsAt(agents: map<nat, Agent>, campaign: nat, s: AgentState): set<nat> {
    AgentsIn(agents, campaign, {s})
  }

  function CallsRinging(calls: map<nat, Call>, campaign: nat): set<nat> { CallsIn(calls, campaign, UNANSWERED) }

  function CallsTalking(calls: map<nat, Call>, campaign: nat): set<nat> {
    CallsIn(calls, campaign, {CallState.Connected})
  }

  /** `snapshot_naive`: count the rows. */
  function Naive(agents: map<nat, Agent>, calls: map<nat, Call>, campaign: nat): Counts {
    Counts(|AgentsAt(agents, campaign, AgentState.Available)|, |AgentsAt(agents, campaign, AgentState.Reserved)|,
           |AgentsAt(agents, campaign, AgentState.Dialing)|, |AgentsAt(agents, campaign, AgentState.Connected)|,
           |AgentsAt(agents, campaign, AgentState.WrapUp)|,
           |CallsRinging(calls, campaign)|, |CallsTalking(calls, campaign)|)
  }

  /** `snapshot_fast`: read the campaign's row, or zeros if there is none. */
  function Fast(counters: map<nat, Counts>, campaign: nat): Counts {
    if campaign in counters then counters[campaign] else NONE
  }

  /** The fast snapshot is the naive one for every campaign, and a campaign with rows has its counters row. */
  ghost predicate Exact(counters: map<nat, Counts>, agents: map<nat, Agent>, calls: map<nat, Call>) {
    && (forall g: nat {:trigger Fast(counters, g)} :: Fast(counters, g) == Naive(agents, calls, g))
    && (forall a :: a in agents ==> agents[a].campaign in counters)
    && (forall c :: c in calls ==> calls[c].campaign in counters)
  }

  // ---- one row write moves each count by what the trigger adds

  lemma OneElement(before: set<nat>, after: set<nat>, x: nat)
    requires after - {x} == before - {x}
    ensures |after| == |before| + Bit(x in after) - Bit(x in before)
  {
    assert |before| == |before - {x}| + Bit(x in before);
    assert |after| == |after - {x}| + Bit(x in after);
  }

  lemma AgentCountAfter(agents: map<nat, Agent>, a: nat, row: Agent, g: nat, s: AgentState)
    ensures |AgentsAt(agents[a := row], g, s)|
            == |AgentsAt(agents, g, s)| + Bit(row.campaign == g && row.state == s)
               - Bit(a in agents && agents[a].campaign == g && agents[a].state == s)
  {
    var before, after := AgentsAt(agents, g, s), AgentsAt(agents[a := row], g, s);
    assert after - {a} == before - {a};
    OneElement(before, after, a);
  }

  lemma RingingCountAfter(calls: map<nat, Call>, c: nat, row: Call, g: nat)
    ensures |CallsRinging(calls[c := row], g)|
            == |CallsRinging(calls, g)| + Bit(row.campaign == g && Unanswered(row))
               - Bit(c in calls && calls[c].campaign == g && Unanswered(calls[c]))
  {
    var before, after := CallsRinging(calls, g), CallsRinging(calls[c := row], g);
    assert after - {c} == before - {c};
    OneElement(before, after, c);
  }

  lemma TalkingCountAfter(calls: map<nat, Call>, c: nat, row: Call, g: nat)
    ensures |CallsTalking(calls[c := row], g)|
            == |CallsTalking(calls, g)| + Bit(row.campaign == g && row.state.Connected?)
               - Bit(c in calls && calls[c].campaign == g && calls[c].state.Connected?)
  {
    var before, after := CallsTalking(calls, g), CallsTalking(calls[c := row], g);
    assert after - {c} == before - {c};
    OneElement(before, after, c);
  }

  lemma NaiveAfterAgent(agents: map<nat, Agent>, calls: map<nat, Call>, a: nat, row: Agent, g: nat)
    requires a in agents ==> agents[a].campaign == row.campaign
    ensures Naive(agents[a := row], calls, g)
            == if row.campaign != g then Naive(agents, calls, g)
               else if a in agents then AgentMoved(Naive(agents, calls, g), agents[a].state, row.state)
               else AgentAdded(Naive(agents, calls, g), row.state)
  {
    AgentCountAfter(agents, a, row, g, AgentState.Available);
    AgentCountAfter(agents, a, row, g, AgentState.Reserved);
    AgentCountAfter(agents, a, row, g, AgentState.Dialing);
    AgentCountAfter(agents, a, row, g, AgentState.Connected);
    AgentCountAfter(agents, a, row, g, AgentState.WrapUp);
    hide AgentsAt;
  }

  lemma NaiveAfterCall(agents: map<nat, Agent>, calls: map<nat, Call>, c: nat, row: Call, g: nat)
    requires c in calls ==> calls[c].campaign == row.campaign
    ensures Naive(agents, calls[c := row], g)
            == if row.campaign != g then Naive(agents, calls, g)
               else if c in calls then CallMoved(Naive(agents, calls, g), calls[c].state, row.state)
               else CallAdded(Naive(agents, calls, g), row.state)
  {
    RingingCountAfter(calls, c, row, g);
    TalkingCountAfter(calls, c, row, g);
    hide CallsRinging, CallsTalking;
  }

  // ---- the triggers keep the counters exact

  /** AFTER INSERT: create the campaign's counters row if it is missing, then add. */
  function AgentInserted(counters: map<nat, Counts>, row: Agent): map<nat, Counts> {
    counters[row.campaign := AgentAdded(Fast(counters, row.campaign), row.state)]
  }

  function CallInserted(counters: map<nat, Counts>, row: Call): map<nat, Counts> {
    counters[row.campaign := CallAdded(Fast(counters, row.campaign), row.state)]
  }

  /** AFTER UPDATE OF state: an UPDATE, so it does nothing where there is no counters row. */
  function AgentUpdated(counters: map<nat, Counts>, before: Agent, after: Agent): map<nat, Counts> {
    if after.campaign in counters
    then counters[after.campaign := AgentMoved(counters[after.campaign], before.state, after.state)]
    else counters
  }

  function CallUpdated(counters: map<nat, Counts>, before: Call, after: Call): map<nat, Counts> {
    if after.campaign in counters
    then counters[after.campaign := CallMoved(counters[after.campaign], before.state, after.state)]
    else counters
  }

  lemma AgentTriggerKeepsExact(counters: map<nat, Counts>, agents: map<nat, Agent>, calls: map<nat, Call>,
                               a: nat, row: Agent)
    requires Exact(counters, agents, calls) && (a in agents ==> agents[a].campaign == row.campaign)
    ensures Exact(if a in agents then AgentUpdated(counters, agents[a], row) else AgentInserted(counters, row),
                  agents[a := row], calls)
  {
    var counters' := if a in agents then AgentUpdated(counters, agents[a], row) else AgentInserted(counters, row);
    forall g: nat ensures Fast(counters', g) == Naive(agents[a := row], calls, g) {
      assert Fast(counters, g) == Naive(agents, calls, g);
      NaiveAfterAgent(agents, calls, a, row, g);
      hide Naive;
    }
  }

  lemma CallTriggerKeepsExact(counters: map<nat, Counts>, agents: map<nat, Agent>, calls: map<nat, Call>,
                              c: nat, row: Call)
    requires Exact(counters, agents, calls) && (c in calls ==> calls[c].campaign == row.campaign)
    ensures Exact(if c in calls then CallUpdated(counters, calls[c], row) else CallInserted(counters, row),
                  agents, calls[c := row])
  {
    var counters' := if c in calls then CallUpdated(counters, calls[c], row) else CallInserted(counters, row);
    forall g: nat ensures Fast(counters', g) == Naive(agents, calls[c := row], g) {
      assert Fast(counters, g) == Naive(agents, calls, g);
      NaiveAfterCall(agents, calls, c, row, g);
      hide Naive;
    }
  }
}
