/** The reservation compare-and-swap, with the read and the write as separate statements of any number
    of workers, appliers and reapers interleaved on one agent row. */
module Reservation {
  import opened Domain
  import opened Rows

  /** Every statement in the repository that writes an agent row. */
  datatype Statement =
    | TryReserve(version: nat, lease: Time)
    | Force(state: AgentState, until: Option<Time>, call: Option<nat>)
    | ReclaimExpired(t: Time)
    | ReleaseWrapped(t: Time)

  function Exec(a: Agent, s: Statement): Agent {
    match s
    case TryReserve(version, lease) =>
      var row := ReserveCas(a, version, lease);
      if row.Some? then row.value else a
    case Force(state, until, call) => ForceState(a, state, until, call)
    case ReclaimExpired(t) => ReclaimAgent(a, t)
    case ReleaseWrapped(t) => ReleaseWrapUp(a, t)
  }

  predicate Wins(a: Agent, s: Statement) { s.TryReserve? && ReserveCas(a, s.version, s.lease).Some? }

  function RowAt(a: Agent, log: seq<Statement>, k: nat): Agent
    requires k <= |log|
  {
    if k == 0 then a else Exec(RowAt(a, log, k - 1), log[k - 1])
  }

  /** A statement that writes the row raises its version; one that does not leaves it as it was. */
  lemma EveryWriteRaisesTheVersion(a: Agent, s: Statement)
    ensures Exec(a, s) == a || Exec(a, s).version == a.version + 1
    ensures Wins(a, s) ==> a.state.Available? && a.version == s.version && Exec(a, s).state.Reserved?
                           && Exec(a, s).version == a.version + 1
  {
  }

  lemma {:induction false} VersionNeverFalls(a: Agent, log: seq<Statement>, i: nat, k: nat)
    requires i <= k <= |log|
    ensures RowAt(a, log, i).version <= RowAt(a, log, k).version
    decreases k
  {
    hide Exec;
    if i < k {
      VersionNeverFalls(a, log, i, k - 1);
      EveryWriteRaisesTheVersion(RowAt(a, log, k - 1), log[k - 1]);
    }
  }

  lemma {:induction false} SameVersionSameRow(a: Agent, log: seq<Statement>, i: nat, k: nat)
    requires i <= k <= |log| && RowAt(a, log, i).version == RowAt(a, log, k).version
    ensures forall j :: i <= j <= k ==> RowAt(a, log, j) == RowAt(a, log, i)
    decreases k
  {
    hide Exec;
    if i < k {
      VersionNeverFalls(a, log, i, k - 1);
      EveryWriteRaisesTheVersion(RowAt(a, log, k - 1), log[k - 1]);
      SameVersionSameRow(a, log, i, k - 1);
    }
  }

  /** No ABA: a compare-and-swap with the version read at i succeeds at k only if the row has not been
      written in between, not even back to what it was. */
  lemma WinMeansUntouchedSinceRead(a: Agent, log: seq<Statement>, i: nat, k: nat)
    requires i <= k < |log| && Wins(RowAt(a, log, k), log[k])
    requires log[k].version == RowAt(a, log, i).version
    ensures forall j :: i <= j <= k ==> RowAt(a, log, j) == RowAt(a, log, i)
    ensures RowAt(a, log, i).state.Available?
  {
    hide RowAt;
    SameVersionSameRow(a, log, i, k);
  }

  /** Statement k is a reservation and wins. */
  predicate WonAt(a: Agent, log: seq<Statement>, k: nat)
    requires k < |log|
  {
    log[k].TryReserve? && Wins(RowAt(a, log, k), log[k])
  }

  lemma WinnerMovesOn(a: Agent, log: seq<Statement>, j: nat)
    requires j < |log| && WonAt(a, log, j)
    ensures log[j].TryReserve? && RowAt(a, log, j).version == log[j].version
    ensures RowAt(a, log, j + 1).version == log[j].version + 1
  {
    hide Exec, Wins;
    EveryWriteRaisesTheVersion(RowAt(a, log, j), log[j]);
  }

  /** Each version is won at most once, so of all workers that read it at most one has the agent. */
  lemma EachVersionIsWonOnce(a: Agent, log: seq<Statement>, j: nat, k: nat)
    requires j < k < |log| && WonAt(a, log, j) && WonAt(a, log, k)
    ensures log[j].TryReserve? && log[k].TryReserve? && log[j].version < log[k].version
  {
    hide WonAt, RowAt;
    WinnerMovesOn(a, log, j);
    WinnerMovesOn(a, log, k);
    VersionNeverFalls(a, log, j + 1, k);
  }

  /** A worker that lost had been overtaken: the row changed since its read, or was not free to begin with. */
  lemma LossMeansOvertaken(a: Agent, log: seq<Statement>, i: nat, k: nat)
    requires i <= k < |log| && log[k].TryReserve? && log[k].version == RowAt(a, log, i).version
    requires RowAt(a, log, i).state.Available?
    ensures Wins(RowAt(a, log, k), log[k]) <==> RowAt(a, log, k) == RowAt(a, log, i)
  {
    hide RowAt, Exec;
    if Wins(RowAt(a, log, k), log[k]) {
      SameVersionSameRow(a, log, i, k);
    }
  }
}
