/** The rows of the shared tables and, row by row, what each SQL statement of src/smartdialer/repo
    does to them. A statement whose WHERE clause fails returns None. */
module Rows {
  import opened Domain
  import Keys

  type Time = real

  datatype Agent = Agent(
    campaign: nat, state: AgentState, version: nat, lease: Option<Time>, call: Option<nat>)

  datatype Borrower = Borrower(
    campaign: nat, state: BorrowerState, attempts: nat, maxAttempts: nat,
    eligibleAt: Time, lockedUntil: Option<Time>)

  datatype Call = Call(
    campaign: nat, agent: nat, borrower: nat, provider: string, pcid: Option<string>,
    state: CallState, rank: nat, attempt: nat, key: string, lease: Option<Time>,
    initiatedAt: Option<Time>, ringingAt: Option<Time>, answeredAt: Option<Time>,
    connectedAt: Option<Time>, terminalAt: Option<Time>, failure: Option<string>)

  datatype Event = Event(
    provider: string, eventId: string, pcid: Option<string>, etype: string,
    applied: bool, anomaly: Option<Anomaly>, call: Option<nat>)

  // ---- repo/agents.py

  function ReserveCas(a: Agent, version: nat, lease: Time): Option<Agent> {
    if a.state.Available? && a.version == version
    then Some(a.(state := AgentState.Reserved, version := a.version + 1, lease := Some(lease)))
    else None
  }

  function ForceState(a: Agent, state: AgentState, lease: Option<Time>, call: Option<nat>): Agent {
    a.(state := state, version := a.version + 1,
       lease := if state.Reserved? || state.Dialing? || state.WrapUp? then lease else None,
       call := call)
  }

  function Release(a: Agent): Agent { ForceState(a, AgentState.Available, None, None) }

  predicate Before(lease: Option<Time>, t: Time) { lease.Some? && lease.value < t }

  // ---- repo/calls.py

  function NewCall(campaign: nat, agent: nat, borrower: nat, provider: string, attempt: nat, lease: Time): Call {
    Call(campaign, agent, borrower, provider, None, CallState.Reserved, 1, attempt,
         Keys.KeyOf(campaign, borrower, attempt), Some(lease), None, None, None, None, None, None)
  }

  function Coalesce<T>(first: Option<T>, second: Option<T>): Option<T> {
    if first.Some? then first else second
  }

  function Advance(c: Call, state: CallState, pcid: Option<string>, lease: Option<Time>,
                   failure: Option<string>, wall: Time): Option<Call>
  {
    if c.rank >= Rank(state) then None
    else Some(c.(
      state := state, rank := Rank(state),
      pcid := Coalesce(c.pcid, pcid),
      initiatedAt := Coalesce(c.initiatedAt, if state.Initiated? then Some(wall) else None),
      ringingAt := Coalesce(c.ringingAt, if state.Ringing? then Some(wall) else None),
      answeredAt := Coalesce(c.answeredAt, if state.Answered? then Some(wall) else None),
      connectedAt := Coalesce(c.connectedAt, if state.Connected? then Some(wall) else None),
      terminalAt := if Rank(state) >= 6 then Some(wall) else c.terminalAt,
      lease := if Rank(state) >= 6 then None else lease,
      failure := Coalesce(failure, c.failure)))
  }

  predicate Unanswered(c: Call) { c.state.Initiated? || c.state.Ringing? }

  function CancelIfNotAnswered(c: Call, reason: string, wall: Time): Option<Call> {
    if Unanswered(c)
    then Some(c.(state := CallState.Cancelled, rank := 6, terminalAt := Some(wall), lease := None,
                 failure := Some(reason)))
    else None
  }

  // ---- repo/borrowers.py

  predicate Claimable(b: Borrower, wall: Time) { b.state.Pending? && b.eligibleAt <= wall }

  function Claim(b: Borrower, lease: Time): Borrower {
    b.(state := BorrowerState.Locked, lockedUntil := Some(lease))
  }

  function Unclaim(b: Borrower): Borrower { b.(state := BorrowerState.Pending, lockedUntil := None) }

  function Reschedule(b: Borrower, backoff: Time, wall: Time): Borrower {
    b.(attempts := b.attempts + 1,
       state := if b.attempts + 1 >= b.maxAttempts then BorrowerState.Exhausted else BorrowerState.Pending,
       eligibleAt := wall + backoff, lockedUntil := None)
  }

  function MarkDone(b: Borrower): Borrower {
    b.(attempts := b.attempts + 1, state := BorrowerState.Done, lockedUntil := None)
  }

  function OnCallTerminal(b: Borrower, state: CallState, backoff: Time, wall: Time): Borrower {
    if state.Completed? then MarkDone(b) else Reschedule(b, backoff, wall)
  }

  // ---- worker/reaper.py

  predicate IsOrphan(c: Call, t: Time) {
    && c.terminalAt.None? && Before(c.lease, t)
    && (c.state.Queued? || c.state.Reserved? || c.state.Initiated?)
  }

  function FailOrphan(c: Call, wall: Time): Call {
    c.(state := CallState.Failed, rank := 6, terminalAt := Some(wall),
       failure := Some("LEASE_EXPIRED_NO_EVENTS"))
  }

  function ReclaimAgent(a: Agent, t: Time): Agent {
    if (a.state.Reserved? || a.state.Dialing?) && Before(a.lease, t)
    then a.(state := if a.state.Reserved? then AgentState.Available else a.state,
            version := a.version + 1, lease := None)
    else a
  }

  function ReleaseWrapUp(a: Agent, t: Time): Agent {
    if a.state.WrapUp? && Before(a.lease, t)
    then a.(state := AgentState.Available, version := a.version + 1, lease := None, call := None)
    else a
  }

  function ReclaimLock(b: Borrower, wall: Time): Borrower {
    if b.state.Locked? && Before(b.lockedUntil, wall) then Unclaim(b) else b
  }
}
