/** States, ranks and the legality table of a call (src/smartdialer/domain). */
module Domain {

  datatype Option<+T> = None | Some(value: T)

  datatype AgentState = Offline | Available | Reserved | Dialing | Connected | WrapUp | Paused

  datatype CallState =
    | Queued | Reserved | Initiated | Ringing | Answered | Connected
    | Completed | Failed | Cancelled | Abandoned

  datatype BorrowerState = Pending | Locked | InCall | Done | Exhausted | Suppressed

  datatype Anomaly = OutOfOrder | IllegalTransition | UnknownCall

  const TERMINAL_RANK: nat := 6

  function Rank(s: CallState): nat {
    match s
    case Queued => 0
    case Reserved => 1
    case Initiated => 2
    case Ringing => 3
    case Answered => 4
    case Connected => 5
    case _ => 6
  }

  predicate Terminal(s: CallState) { Rank(s) == TERMINAL_RANK }

  const TERMINAL: set<CallState> := {CallState.Completed, CallState.Failed, CallState.Cancelled, CallState.Abandoned}

  /** What the snapshot counts as ringing. */
  const UNANSWERED: set<CallState> := {CallState.Initiated, CallState.Ringing}

  function LegalNext(s: CallState): set<CallState> {
    match s
    case Queued => {CallState.Reserved} + TERMINAL
    case Reserved => {CallState.Initiated} + TERMINAL
    case Initiated => {CallState.Ringing, CallState.Answered} + TERMINAL
    case Ringing => {CallState.Answered} + TERMINAL
    case Answered => {CallState.Connected} + TERMINAL
    case Connected => TERMINAL
    case _ => {}
  }

  datatype Verdict = Apply | Skip(anomaly: Anomaly)

  function CanApply(current: CallState, incoming: CallState): Verdict {
    if Rank(current) >= TERMINAL_RANK then Skip(OutOfOrder)
    else if Rank(incoming) <= Rank(current) then Skip(OutOfOrder)
    else if incoming !in LegalNext(current) then Skip(IllegalTransition)
    else Apply
  }

  /** What a committed call transition does to the agent; None leaves the agent alone. */
  function AgentOnCallState(s: CallState): Option<AgentState> {
    match s
    case Initiated => Some(AgentState.Dialing)
    case Connected => Some(AgentState.Connected)
    case Completed => Some(AgentState.WrapUp)
    case Failed => Some(AgentState.Available)
    case Cancelled => Some(AgentState.Available)
    case Abandoned => Some(AgentState.Available)
    case _ => None
  }

  /** The two rank tests in front of the table never change the verdict, only the anomaly reported. */
  lemma CanApplyIsTheTable(current: CallState, incoming: CallState)
    ensures CanApply(current, incoming).Apply? <==> incoming in LegalNext(current)
    ensures incoming in LegalNext(current) ==> Rank(current) < Rank(incoming)
  {
  }

  /** A live call may end at any time; otherwise it takes one step at a time, except that an answer may
      overtake RINGING. */
  lemma LegalNextIsOneStepOrTheEnd(current: CallState, next: CallState)
    ensures next in LegalNext(current) <==>
      && !Terminal(current)
      && (Terminal(next) || Rank(next) == Rank(current) + 1 || (current.Initiated? && next.Answered?))
  {
  }

  /** Reads of one call are ordered by rank, so an older read lies on a legal path to the newer state.
      The two guards together (the table on the old read, the rank on the fresh row) then decide
      exactly as the table on the fresh row would. */
  predicate SeenOf(current: CallState, seen: CallState) {
    && 2 <= Rank(seen) <= Rank(current)
    && (Rank(seen) == Rank(current) ==> seen == current)
    && !seen.Answered? && !current.Answered?
  }

  lemma StaleGuardIsFreshGuard(current: CallState, seen: CallState, incoming: CallState)
    requires SeenOf(current, seen)
    ensures (CanApply(seen, incoming).Apply? && Rank(current) < Rank(incoming)) <==> incoming in LegalNext(current)
  {
  }

  // ---- paths through the table

  ghost predicate LegalPath(p: seq<CallState>) {
    forall i :: 0 <= i < |p| - 1 ==> p[i + 1] in LegalNext(p[i])
  }

  /** A legal path climbs in rank at every step, so no state is entered twice and nothing follows a
      terminal state. */
  lemma {:induction false} LegalPathClimbs(p: seq<CallState>, i: nat, j: nat)
    requires LegalPath(p) && i < j < |p|
    ensures Rank(p[i]) < Rank(p[j]) && !Terminal(p[i]) && j - i <= Rank(p[j]) - Rank(p[i])
    decreases j - i
  {
    assert p[i + 1] in LegalNext(p[i]);
    CanApplyIsTheTable(p[i], p[i + 1]);
    if i + 1 < j {
      LegalPathClimbs(p, i + 1, j);
    }
  }
}
