/** A batch of concurrent allocations as the fold of its transactions in the order they happened
    (src/smartdialer/allocator/allocator.py). */
module Schedules {
  import opened Domain
  import opened Rows
  import opened Transactions
  import opened Allocations
  import Sizes
  import Sweeps

  /** What a batch is asked for and what it meets. Before the k-th of its transactions others commit
      `env(k, ..)`; a first transaction then finds `choose(k, ..)`, and the provider's answer, by the time of
      a last one, is `answer(k, ..)`: None is a refusal. */
  datatype Plan = Plan(
    campaign: nat, lease: Time, dialLease: Time, wall: Time,
    choose: (nat, Db) -> Pick, answer: (nat, Db) -> Option<string>, env: (nat, Db) -> Db)

  /** The picks are rows that can be picked, and others commit what a batch tolerates. */
  ghost predicate Fair(plan: Plan) {
    && (forall k: nat, db: Db :: PickOk(db, plan.campaign, plan.choose(k, db), plan.wall))
    && (forall k: nat, db: Db :: Sweeps.Tolerable(db, plan.env(k, db)))
  }

  ghost predicate FreshAnswers(plan: Plan) {
    forall k: nat, db: Db :: plan.answer(k, db).Some? ==> UnusedRef(db, plan.answer(k, db).value)
  }

  /** Allocation `index` runs its first transaction, or its last. */
  datatype Turn = First(index: nat) | Last(index: nat)

  /** placed: last transactions that recorded a placed call. raised: a transaction ran into a UNIQUE
      constraint. */
  datatype Batch = Batch(db: Db, placing: map<nat, Placing>, placed: nat, raised: bool)

  function Begun(b: Batch, mid: Db, k: nat, i: nat, plan: Plan): Batch
    requires PickOk(mid, plan.campaign, plan.choose(k, mid), plan.wall)
  {
    var pick := plan.choose(k, mid);
    var (made, created) := TxReserve(mid, plan.campaign, pick, plan.lease, plan.wall);
    Batch(made,
          if created.Some? && created.value in made.calls then b.placing[i := PlacingOf(made, created.value)]
          else b.placing,
          b.placed, b.raised || KeyAborts(mid, plan.campaign, pick, plan.lease, plan.wall))
  }

  function Finished(b: Batch, mid: Db, k: nat, i: nat, plan: Plan): Batch
    requires i in b.placing && Addressed(mid, b.placing)
  {
    var (p, answer) := (b.placing[i], plan.answer(k, mid));
    if answer.None?
    then Batch(TxReject(mid, p.call, p.agent, p.borrower, plan.wall), b.placing - {i}, b.placed, b.raised)
    else
      var aborted := ReferenceAborts(mid, p.call, answer.value);
      Batch(TxInitiate(mid, p.call, p.agent, answer.value, plan.dialLease, plan.wall), b.placing - {i},
            if aborted then b.placed else b.placed + 1, b.raised || aborted)
  }

  ghost function Turned(b: Batch, t: Turn, k: nat, plan: Plan): Batch {
    var mid := plan.env(k, b.db);
    match t
    case First(i) =>
      if PickOk(mid, plan.campaign, plan.choose(k, mid), plan.wall) then Begun(b, mid, k, i, plan) else b.(db := mid)
    case Last(i) =>
      if i in b.placing && Addressed(mid, b.placing) then Finished(b, mid, k, i, plan) else b.(db := mid)
  }

  /** The batch after these turns, each behind whatever others committed before it. */
  ghost function Batched(db: Db, turns: seq<Turn>, plan: Plan): Batch {
    if turns == [] then Batch(db, map[], 0, false)
    else
      var k := |turns| - 1;
      Turned(Batched(db, turns[..k], plan), turns[k], k, plan)
  }

  predicate NoneTwice(turns: seq<Turn>) {
    forall k, l :: 0 <= k < l < |turns| ==> turns[k] != turns[l]
  }

  ghost predicate LastsWerePlacing(db: Db, turns: seq<Turn>, plan: Plan) {
    forall k :: 0 <= k < |turns| && turns[k].Last? ==> turns[k].index in Batched(db, turns[..k], plan).placing
  }

  /** Each of the n allocations runs its first transaction once, and its last once if it created a call. */
  ghost predicate IsSchedule(db: Db, turns: seq<Turn>, n: nat, plan: Plan) {
    && NoneTwice(turns) && (forall i: nat :: First(i) in turns <==> i < n)
    && LastsWerePlacing(db, turns, plan) && Batched(db, turns, plan).placing == map[]
  }

  // ---- a schedule in the making

  /** Those that wait have not begun, those placing have begun and not ended, the others have ended. */
  ghost predicate Begins(turns: seq<Turn>, n: nat, waiting: set<nat>, placing: map<nat, Placing>) {
    && (forall i: nat :: First(i) in turns <==> i < n && i !in waiting)
    && (forall i: nat :: Last(i) in turns ==> First(i) in turns && i !in placing)
    && (forall i :: i in placing ==> First(i) in turns)
    && (forall i :: i in waiting ==> i < n)
  }

  ghost predicate ScheduleAt(db: Db, turns: seq<Turn>, n: nat, plan: Plan, waiting: set<nat>, b: Batch) {
    && NoneTwice(turns) && Begins(turns, n, waiting, b.placing)
    && LastsWerePlacing(db, turns, plan) && Batched(db, turns, plan) == b
  }

  lemma ScheduleStarts(db: Db, n: nat, plan: Plan)
    ensures ScheduleAt(db, [], n, plan, Sizes.UpTo(n), Batch(db, map[], 0, false))
  {
  }

  lemma OneMoreTurn(db: Db, turns: seq<Turn>, t: Turn, plan: Plan)
    ensures Batched(db, turns + [t], plan) == Turned(Batched(db, turns, plan), t, |turns|, plan)
  {
    hide Turned;
    assert (turns + [t])[..|turns|] == turns;
  }

  lemma NewTurnIsDistinct(turns: seq<Turn>, t: Turn)
    requires t !in turns && NoneTwice(turns)
    ensures NoneTwice(turns + [t])
  {
  }

  lemma LastsStayPlacing(db: Db, turns: seq<Turn>, t: Turn, plan: Plan)
    requires LastsWerePlacing(db, turns, plan) && (t.Last? ==> t.index in Batched(db, turns, plan).placing)
    ensures LastsWerePlacing(db, turns + [t], plan)
  {
    hide Batched;
    var all := turns + [t];
    forall k | 0 <= k < |all| && all[k].Last? ensures all[k].index in Batched(db, all[..k], plan).placing {
      assert all[..k] == turns[..k];
      assert turns[..|turns|] == turns;
    }
  }

  lemma FirstBegins(turns: seq<Turn>, n: nat, waiting: set<nat>, placing: map<nat, Placing>, i: nat,
                    now: map<nat, Placing>)
    requires Begins(turns, n, waiting, placing) && i in waiting
    requires now.Keys == placing.Keys || now.Keys == placing.Keys + {i}
    ensures First(i) !in turns && Begins(turns + [First(i)], n, waiting - {i}, now)
  {
    assert forall u :: u in turns + [First(i)] <==> u in turns || u == First(i);
  }

  lemma LastEnds(turns: seq<Turn>, n: nat, waiting: set<nat>, placing: map<nat, Placing>, i: nat)
    requires Begins(turns, n, waiting, placing) && i in placing
    ensures Last(i) !in turns && Begins(turns + [Last(i)], n, waiting, placing - {i})
  {
    assert forall u :: u in turns + [Last(i)] <==> u in turns || u == Last(i);
  }

  lemma BegunKeys(b: Batch, mid: Db, k: nat, i: nat, plan: Plan)
    requires PickOk(mid, plan.campaign, plan.choose(k, mid), plan.wall)
    ensures var now := Begun(b, mid, k, i, plan).placing;
      now.Keys == b.placing.Keys || now.Keys == b.placing.Keys + {i}
  {
    hide TxReserve, KeyAborts, PickOk;
  }

  lemma FirstTurn(db: Db, turns: seq<Turn>, n: nat, plan: Plan, waiting: set<nat>, b: Batch, i: nat)
    requires ScheduleAt(db, turns, n, plan, waiting, b) && i in waiting
    requires var mid := plan.env(|turns|, b.db); PickOk(mid, plan.campaign, plan.choose(|turns|, mid), plan.wall)
    ensures var mid := plan.env(|turns|, b.db);
      ScheduleAt(db, turns + [First(i)], n, plan, waiting - {i}, Begun(b, mid, |turns|, i, plan))
  {
    hide PickOk, Begun, Batched, Begins, NoneTwice, LastsWerePlacing;
    var mid := plan.env(|turns|, b.db);
    BegunKeys(b, mid, |turns|, i, plan);
    FirstBegins(turns, n, waiting, b.placing, i, Begun(b, mid, |turns|, i, plan).placing);
    OneMoreTurn(db, turns, First(i), plan);
    NewTurnIsDistinct(turns, First(i));
    LastsStayPlacing(db, turns, First(i), plan);
  }

  lemma LastTurn(db: Db, turns: seq<Turn>, n: nat, plan: Plan, waiting: set<nat>, b: Batch, i: nat)
    requires ScheduleAt(db, turns, n, plan, waiting, b) && i in b.placing
    requires Addressed(plan.env(|turns|, b.db), b.placing)
    ensures var mid := plan.env(|turns|, b.db);
      ScheduleAt(db, turns + [Last(i)], n, plan, waiting, Finished(b, mid, |turns|, i, plan))
  {
    hide Batched, Begins, NoneTwice, LastsWerePlacing, TxReject, TxInitiate, ReferenceAborts;
    var mid := plan.env(|turns|, b.db);
    LastEnds(turns, n, waiting, b.placing, i);
    assert Finished(b, mid, |turns|, i, plan).placing == b.placing - {i};
    hide Finished, Addressed;
    OneMoreTurn(db, turns, Last(i), plan);
    NewTurnIsDistinct(turns, Last(i));
    LastsStayPlacing(db, turns, Last(i), plan);
  }

  lemma ScheduleEnds(db: Db, turns: seq<Turn>, n: nat, plan: Plan, b: Batch)
    requires ScheduleAt(db, turns, n, plan, {}, b) && b.placing.Keys == {}
    ensures IsSchedule(db, turns, n, plan) && Batched(db, turns, plan) == b
  {
    hide Batched, LastsWerePlacing, NoneTwice;
  }

  /** Those still to begin and those still to end leave room for what has been placed. */
  ghost predicate Room(n: nat, waiting: set<nat>, open: set<nat>, placed: nat) {
    placed + |waiting| + |open| <= n
  }

  lemma RoomAtFirst(n: nat)
    ensures Room(n, Sizes.UpTo(n), {}, 0)
  {
  }

  lemma RoomMeansFewPlaced(n: nat, waiting: set<nat>, open: set<nat>, placed: nat)
    requires Room(n, waiting, open, placed)
    ensures placed <= n
  {
  }

  lemma FirstFits(n: nat, waiting: set<nat>, open: set<nat>, placed: nat, i: nat, now: set<nat>)
    requires Room(n, waiting, open, placed) && i in waiting && (now == open || now == open + {i})
    ensures Room(n, waiting - {i}, now, placed)
    ensures 2 * |waiting - {i}| + |now| < 2 * |waiting| + |open|
  {
  }

  lemma LastFits(n: nat, waiting: set<nat>, open: set<nat>, placed: nat, i: nat, now: nat)
    requires Room(n, waiting, open, placed) && i in open && placed <= now <= placed + 1
    ensures Room(n, waiting, open - {i}, now) && |open - {i}| < |open|
  {
  }

  // ---- what a schedule says

  lemma OnlyItsLastEndsIt(b: Batch, t: Turn, k: nat, plan: Plan, i: nat)
    requires i in b.placing && t != Last(i)
    ensures i in Turned(b, t, k, plan).placing
  {
    hide TxReject, TxInitiate, TxReserve, PickOk;
  }

  lemma {:induction false} StaysPlacingUntilLast(db: Db, turns: seq<Turn>, plan: Plan, k: nat, i: nat)
    requires k <= |turns| && i in Batched(db, turns[..k], plan).placing
    requires forall l :: k <= l < |turns| ==> turns[l] != Last(i)
    ensures i in Batched(db, turns, plan).placing
    decreases |turns|
  {
    hide Turned;
    if k < |turns| {
      var last := |turns| - 1;
      assert turns[..last][..k] == turns[..k];
      StaysPlacingUntilLast(db, turns[..last], plan, k, i);
      OnlyItsLastEndsIt(Batched(db, turns[..last], plan), turns[last], last, plan, i);
    } else {
      assert turns[..k] == turns;
    }
  }

  /** Allocation i's first transaction is turn f, and it created a call. */
  ghost predicate CreatedAt(db: Db, turns: seq<Turn>, plan: Plan, f: nat, i: nat) {
    f < |turns| && turns[f] == First(i) && i in Batched(db, turns[..f + 1], plan).placing
  }

  /** An allocation has a last transaction exactly if its first one created a call, and then only one. */
  lemma LastIffCreated(db: Db, turns: seq<Turn>, n: nat, plan: Plan, k: nat, i: nat)
    requires IsSchedule(db, turns, n, plan) && k < |turns| && turns[k] == First(i)
    ensures Last(i) in turns <==> CreatedAt(db, turns, plan, k, i)
  {
    hide Turned, Batched, LastsWerePlacing;
    if CreatedAt(db, turns, plan, k, i) && Last(i) !in turns {
      StaysPlacingUntilLast(db, turns, plan, k + 1, i);
    }
    if Last(i) in turns {
      LastsHadACall(db, turns, plan, i);
      var f: nat :| CreatedAt(db, turns, plan, f, i);
      assert turns[f] == turns[k] && f == k;
    }
  }

  lemma LastsHadACall(db: Db, turns: seq<Turn>, plan: Plan, i: nat)
    requires LastsWerePlacing(db, turns, plan) && Last(i) in turns
    ensures exists f: nat :: CreatedAt(db, turns, plan, f, i)
  {
    hide Batched;
    var l: nat :| l < |turns| && turns[l] == Last(i);
    PlacingMeansBegun(db, turns[..l], plan, i);
    var f: nat :| CreatedAt(db, turns[..l], plan, f, i);
    EarlierCreation(db, turns, plan, l, f, i);
  }

  lemma EarlierCreation(db: Db, turns: seq<Turn>, plan: Plan, l: nat, f: nat, i: nat)
    requires l <= |turns| && CreatedAt(db, turns[..l], plan, f, i)
    ensures CreatedAt(db, turns, plan, f, i)
  {
    hide Batched;
    assert turns[..l][..f + 1] == turns[..f + 1];
  }

  lemma {:induction false} PlacingMeansBegun(db: Db, turns: seq<Turn>, plan: Plan, i: nat)
    requires i in Batched(db, turns, plan).placing
    ensures exists f: nat :: CreatedAt(db, turns, plan, f, i)
    decreases |turns|
  {
    hide Turned;
    if turns != [] {
      var k := |turns| - 1;
      if i in Batched(db, turns[..k], plan).placing {
        PlacingMeansBegun(db, turns[..k], plan, i);
        var f: nat :| CreatedAt(db, turns[..k], plan, f, i);
        EarlierCreation(db, turns, plan, k, f, i);
      } else {
        OnlyFirstsBegin(Batched(db, turns[..k], plan), turns[k], k, plan, i);
        assert turns[..k + 1] == turns;
        assert CreatedAt(db, turns, plan, k, i);
      }
    }
  }

  lemma OnlyFirstsBegin(b: Batch, t: Turn, k: nat, plan: Plan, i: nat)
    requires i !in b.placing && i in Turned(b, t, k, plan).placing
    ensures t == First(i)
  {
    hide TxReject, TxInitiate, TxReserve, PickOk;
  }

  // ---- what the two results count

  /** Turn k ran into a UNIQUE constraint: the key of its new call, or the provider's reference, was taken. */
  ghost predicate RaisesAt(db: Db, turns: seq<Turn>, plan: Plan, k: nat)
    requires k < |turns|
  {
    var b := Batched(db, turns[..k], plan);
    var mid := plan.env(k, b.db);
    match turns[k]
    case First(_) =>
      && PickOk(mid, plan.campaign, plan.choose(k, mid), plan.wall)
      && KeyAborts(mid, plan.campaign, plan.choose(k, mid), plan.lease, plan.wall)
    case Last(i) =>
      && i in b.placing && Addressed(mid, b.placing) && plan.answer(k, mid).Some?
      && ReferenceAborts(mid, b.placing[i].call, plan.answer(k, mid).value)
  }

  /** Turn k recorded that the provider had placed the call. */
  ghost predicate RecordsAt(db: Db, turns: seq<Turn>, plan: Plan, k: nat)
    requires k < |turns|
  {
    var b := Batched(db, turns[..k], plan);
    var mid := plan.env(k, b.db);
    && turns[k].Last? && turns[k].index in b.placing && Addressed(mid, b.placing) && plan.answer(k, mid).Some?
    && !ReferenceAborts(mid, b.placing[turns[k].index].call, plan.answer(k, mid).value)
  }

  lemma TurnAddsItsOwn(db: Db, turns: seq<Turn>, plan: Plan)
    requires turns != []
    ensures var k := |turns| - 1;
      var (before, after) := (Batched(db, turns[..k], plan), Batched(db, turns, plan));
      && (after.raised <==> before.raised || RaisesAt(db, turns, plan, k))
      && after.placed == before.placed + if RecordsAt(db, turns, plan, k) then 1 else 0
  {
    hide TxReserve, TxReject, TxInitiate, KeyAborts, ReferenceAborts, PickOk, Addressed;
  }

  lemma PrefixTurns(db: Db, turns: seq<Turn>, plan: Plan, last: nat, k: nat)
    requires k < last <= |turns|
    ensures RaisesAt(db, turns[..last], plan, k) <==> RaisesAt(db, turns, plan, k)
    ensures RecordsAt(db, turns[..last], plan, k) <==> RecordsAt(db, turns, plan, k)
  {
    assert turns[..last][..k] == turns[..k];
  }

  /** `raised` says that some turn did. */
  lemma {:induction false} RaisedIffSomeTurnDid(db: Db, turns: seq<Turn>, plan: Plan)
    ensures Batched(db, turns, plan).raised <==> exists k: nat :: k < |turns| && RaisesAt(db, turns, plan, k)
    decreases |turns|
  {
    if turns != [] {
      hide Batched, RaisesAt, RecordsAt;
      var last := |turns| - 1;
      RaisedIffSomeTurnDid(db, turns[..last], plan);
      TurnAddsItsOwn(db, turns, plan);
      forall k: nat | k < last ensures RaisesAt(db, turns[..last], plan, k) <==> RaisesAt(db, turns, plan, k) {
        PrefixTurns(db, turns, plan, last, k);
      }
    }
  }

  ghost function Recording(db: Db, turns: seq<Turn>, plan: Plan): set<nat> {
    set k | 0 <= k < |turns| && RecordsAt(db, turns, plan, k)
  }

  lemma RecordingGrows(db: Db, turns: seq<Turn>, plan: Plan)
    requires turns != []
    ensures var last := |turns| - 1; var before := Recording(db, turns[..last], plan);
      && last !in before
      && Recording(db, turns, plan) == if RecordsAt(db, turns, plan, last) then before + {last} else before
  {
    hide RecordsAt, RaisesAt, Batched;
    var last := |turns| - 1;
    forall k: nat | k < last ensures RecordsAt(db, turns[..last], plan, k) <==> RecordsAt(db, turns, plan, k) {
      PrefixTurns(db, turns, plan, last, k);
    }
  }

  /** `placed` counts those that recorded. */
  lemma {:induction false} PlacedCountsTheRecording(db: Db, turns: seq<Turn>, plan: Plan)
    ensures Batched(db, turns, plan).placed == |Recording(db, turns, plan)|
    decreases |turns|
  {
    if turns != [] {
      hide Batched, RaisesAt, RecordsAt, Recording;
      PlacedCountsTheRecording(db, turns[..|turns| - 1], plan);
      TurnAddsItsOwn(db, turns, plan);
      RecordingGrows(db, turns, plan);
    }
  }
}
