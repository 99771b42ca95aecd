/** The free-cancellation sweep as it runs, transaction by transaction, with the rest of the system
    committing in between (src/smartdialer/allocator/allocator.py). */
module Sweeps {
  import opened Rows
  import opened Transactions
  import opened World
  import opened Counters
  import Accounting
  import Laws
  import Pullback
  import Runs
  import Sizes

  ghost predicate Undisturbed(env: (nat, Db) -> Db) { forall i: nat, db: Db :: env(i, db) == db }

  /** If call c is ringing at all, it is a call of this campaign. */
  predicate RingsAs(calls: map<nat, Call>, c: nat, campaign: nat) {
    c in calls && Unanswered(calls[c]) ==> calls[c].campaign == campaign
  }

  lemma RingsAsBefore(db: Db, mid: Db, c: nat, campaign: nat)
    requires RingsAs(db.calls, c, campaign) && forall d :: Pullback.NoRing(db.calls, mid.calls, d)
    ensures RingsAs(mid.calls, c, campaign)
  {
    assert Pullback.NoRing(db.calls, mid.calls, c);
  }

  lemma SameRings(before: map<nat, Call>, after: map<nat, Call>, c: nat, campaign: nat)
    requires RingsAs(before, c, campaign) && c in before && c in after && after[c] == before[c]
    ensures RingsAs(after, c, campaign)
  {
  }

  /** Agents and calls correspond, pair by pair within a campaign. */
  ghost predicate Coherent(db: Db) {
    Laws.Corresponds(db) && forall c :: c in db.calls ==> Placeable(db.calls[c], db.agents, db.borrowers)
  }

  ghost predicate KeepsCoherent(env: (nat, Db) -> Db) {
    forall i: nat, db: Db :: Coherent(db) ==> Coherent(env(i, db))
  }

  lemma CoherentGap(env: (nat, Db) -> Db, i: nat, db: Db)
    requires KeepsCoherent(env) && Coherent(db)
    ensures Coherent(env(i, db))
  {
  }

  /** In every reachable state they do. */
  lemma ReachableIsCoherent(w: World)
    requires Runs.Reachable(w)
    ensures Coherent(w.db)
  {
    hide Runs.Reachable, Laws.Corresponds;
    Laws.AgentsAndCallsCorrespond(w);
    Runs.ReachableHasInv(w);
  }

  /** The sweep's first n transactions, each after what happened before it: the tables they leave and what
      these transactions alone added up to. */
  ghost function Swept(db: Db, rows: seq<nat>, n: nat, wall: Time, env: (nat, Db) -> Db, campaign: nat)
      : (Db, Accounting.Account)
    requires n <= |rows|
  {
    if n == 0 then (db, Accounting.Account(0, 0, 0))
    else
      var (before, t) := Swept(db, rows, n - 1, wall, env, campaign);
      var (mid, c) := (env(n - 1, before), rows[n - 1]);
      if !(ForeignKeys(mid) && c in mid.calls) then (mid, t)
      else
        var after := TxCancel(mid, c, wall);
        (after, Accounting.Account(t.cancelled + Bit(Unanswered(mid.calls[c])),
                        t.freed + Accounting.Idle(after, campaign) - Accounting.Idle(mid, campaign),
                        t.charged + Accounting.TotalAttempts(after.borrowers)
                        - Accounting.TotalAttempts(mid.borrowers)))
  }

  lemma SweptOneMore(db: Db, rows: seq<nat>, i: nat, wall: Time, env: (nat, Db) -> Db, campaign: nat)
    requires i < |rows|
    requires var mid := env(i, Swept(db, rows, i, wall, env, campaign).0); ForeignKeys(mid) && rows[i] in mid.calls
    ensures var (before, t) := Swept(db, rows, i, wall, env, campaign);
      var mid := env(i, before);
      var after := TxCancel(mid, rows[i], wall);
      Swept(db, rows, i + 1, wall, env, campaign) ==
      (after, Accounting.Account(t.cancelled + Bit(Unanswered(mid.calls[rows[i]])),
                      t.freed + Accounting.Idle(after, campaign) - Accounting.Idle(mid, campaign),
                      t.charged + Accounting.TotalAttempts(after.borrowers) - Accounting.TotalAttempts(mid.borrowers)))
  {
    hide TxCancel, ForeignKeys, Accounting.Idle, Accounting.TotalAttempts;
  }

  lemma CancelKeepsPlaceable(db: Db, c: nat, wall: Time, d: nat)
    requires ForeignKeys(db) && c in db.calls && d in db.calls
    requires Placeable(db.calls[d], db.agents, db.borrowers)
    ensures var after := TxCancel(db, c, wall);
      d in after.calls && Placeable(after.calls[d], after.agents, after.borrowers)
  {
  }

  lemma BorrowersDoNotMatter(db: Db, borrowers: map<nat, Borrower>)
    requires Laws.Corresponds(db)
    ensures Laws.Corresponds(db.(borrowers := borrowers))
  {
    var after := db.(borrowers := borrowers);
    forall a | a in after.agents && Busy(after.agents[a]) ensures Laws.HasCall(after, a) {
      assert Laws.HasCall(db, a);
      var d :| d in db.calls && Live(db.calls[d]) && db.calls[d].agent == a;
      assert d in after.calls;
    }
  }

  /** A live call ends and its agent is let go. */
  lemma EndingKeepsCorrespondence(db: Db, c: nat, call: Call, row: Agent)
    requires Laws.Corresponds(db) && c in db.calls && Live(db.calls[c]) && !Live(call)
    requires !Busy(row) && row.call.None?
    ensures Laws.Corresponds(db.(calls := db.calls[c := call], agents := db.agents[db.calls[c].agent := row]))
  {
    hide Linked, Busy, Live;
    var k := db.calls[c];
    var after := db.(calls := db.calls[c := call], agents := db.agents[k.agent := row]);
    OthersHaveOtherAgents(db, c);
    forall a | a in after.agents && Busy(after.agents[a]) ensures Laws.HasCall(after, a) {
      assert a != k.agent;
      ElsewhereStillServed(db, c, call, after, a);
    }
  }

  lemma OthersHaveOtherAgents(db: Db, c: nat)
    requires Laws.Corresponds(db) && c in db.calls && Live(db.calls[c])
    ensures forall d :: d in db.calls && d != c && Live(db.calls[d]) ==> db.calls[d].agent != db.calls[c].agent
  {
    hide Linked;
    forall d | d in db.calls && d != c && Live(db.calls[d]) ensures db.calls[d].agent != db.calls[c].agent {
      assert db.calls[d].agent == db.calls[c].agent ==> Laws.SameLiveAgent(db.calls[d], db.calls[c]);
    }
  }

  lemma ElsewhereStillServed(db: Db, c: nat, call: Call, after: Db, a: nat)
    requires c in db.calls && db.calls[c].agent != a && Laws.HasCall(db, a) && after.calls == db.calls[c := call]
    ensures Laws.HasCall(after, a)
  {
    var d :| d in db.calls && Live(db.calls[d]) && db.calls[d].agent == a;
    assert d in after.calls && after.calls[d] == db.calls[d];
  }

  lemma CancelKeepsCorrespondence(db: Db, c: nat, wall: Time)
    requires ForeignKeys(db) && c in db.calls && Laws.Corresponds(db) && Unanswered(db.calls[c])
    ensures Laws.Corresponds(TxCancel(db, c, wall))
  {
    var k, after := db.calls[c], TxCancel(db, c, wall);
    var ended := db.(calls := db.calls[c := after.calls[c]],
                     agents := db.agents[k.agent := Release(db.agents[k.agent])]);
    assert after == ended.(borrowers := after.borrowers);
    hide TxCancel, OnCallTerminal;
    EndingKeepsCorrespondence(db, c, after.calls[c], Release(db.agents[k.agent]));
    BorrowersDoNotMatter(ended, after.borrowers);
  }

  lemma CancelKeepsCoherent(db: Db, c: nat, wall: Time)
    requires ForeignKeys(db) && c in db.calls && Coherent(db)
    ensures Coherent(TxCancel(db, c, wall))
  {
    if Unanswered(db.calls[c]) {
      var k, after := db.calls[c], TxCancel(db, c, wall);
      assert Placeable(k, db.agents, db.borrowers);
      hide Placeable;
      CancelKeepsCorrespondence(db, c, wall);
      hide Laws.Corresponds;
      forall d | d in after.calls ensures Placeable(after.calls[d], after.agents, after.borrowers) {
        CancelKeepsPlaceable(db, c, wall, d);
      }
    }
  }

  lemma CoherentRow(db: Db, c: nat)
    requires Coherent(db) && c in db.calls && Unanswered(db.calls[c])
    ensures Placeable(db.calls[c], db.agents, db.borrowers) && db.agents[db.calls[c].agent].state.Dialing?
  {
    assert Live(db.calls[c]);
  }

  /** One transaction of the sweep: an attempt is charged iff it takes effect, and an agent is freed iff it
      does, if agents and calls correspond. */
  lemma CancelCounts(db: Db, c: nat, wall: Time, campaign: nat)
    requires ForeignKeys(db) && c in db.calls && RingsAs(db.calls, c, campaign)
    ensures var (after, won) := (TxCancel(db, c, wall), Bit(Unanswered(db.calls[c])));
      && Accounting.TotalAttempts(after.borrowers) == Accounting.TotalAttempts(db.borrowers) + won
      && (Coherent(db) ==>
        Accounting.Idle(after, campaign) == Accounting.Idle(db, campaign) + won && Coherent(after))
  {
    hide Accounting.Idle, Accounting.TotalAttempts, Coherent;
    var k := db.calls[c];
    if Unanswered(k) {
      var after := TxCancel(db, c, wall);
      Accounting.TotalAttemptsAfter(db.borrowers, k.borrower, after.borrowers[k.borrower]);
    }
    if Coherent(db) {
      CancelKeepsCoherent(db, c, wall);
      if Unanswered(k) {
        CoherentRow(db, c);
        Accounting.CancelledRowsCount(db, c, wall);
      }
    }
  }

  function Members(s: seq<nat>): set<nat> { set r | r in s }

  lemma DistinctAt(rows: seq<nat>, i: nat)
    requires Distinct(rows) && i < |rows|
    ensures forall j :: i < j < |rows| ==> rows[j] != rows[i]
  {
  }

  lemma DistinctSize(s: seq<nat>)
    requires Distinct(s)
    ensures |Members(s)| == |s|
  {
    Sizes.PrefixSize(s, |s|);
    assert Members(s) == set i | 0 <= i < |s| :: s[i];
  }

  lemma RowsLeave(before: set<nat>, left: set<nat>, picked: set<nat>)
    requires left <= before - picked && picked <= before
    ensures |left| <= |before| - |picked|
  {
    Sizes.SubsetSize(left, before - picked);
    assert |before - picked| == |before| - |picked|;
  }

  /** One gap and one cancellation: nothing new rings, and the candidate no longer does. */
  lemma SweepStep(db: Db, mid: Db, after: Db, campaign: nat, c: nat, wall: Time)
    requires ForeignKeys(mid) && c in mid.calls && after == TxCancel(mid, c, wall)
    requires forall d :: Pullback.NoRing(db.calls, mid.calls, d)
    ensures CallsRinging(after.calls, campaign) <= CallsRinging(db.calls, campaign) - {c}
    ensures after.calls.Keys == mid.calls.Keys
    ensures forall d :: d in mid.calls && d != c ==> after.calls[d] == mid.calls[d]
  {
    forall d | d in CallsRinging(after.calls, campaign) ensures d != c && d in CallsRinging(db.calls, campaign) {
      assert Pullback.NoRing(db.calls, mid.calls, d);
    }
  }

  /** ORDER BY initiated_at ASC, with NULLs last. */
  predicate Older(k: Call, l: Call) {
    l.initiatedAt.None? || (k.initiatedAt.Some? && k.initiatedAt.value <= l.initiatedAt.value)
  }

  predicate OlderId(calls: map<nat, Call>, c: nat, d: nat) {
    c in calls && d in calls && Older(calls[c], calls[d])
  }

  /** Whatever the rows leave ringing was initiated no earlier. */
  ghost predicate OldestFirst(calls: map<nat, Call>, rows: seq<nat>, campaign: nat) {
    forall r, c :: r in rows && c in CallsRinging(calls, campaign) && c !in rows ==> OlderId(calls, r, c)
  }

  function Excess(current: nat, allowed: int): nat {
    if current <= allowed then 0 else current - allowed
  }

  /** How many of `current` ringing calls the sweep picks. */
  function Selected(current: nat, allowed: int): nat {
    if allowed < 0 then current else Excess(current, allowed)
  }

  /** What others may commit between two transactions: no row is deleted, no constraint broken, and no
      further call set ringing. */
  ghost predicate Tolerable(before: Db, after: Db) {
    ForeignKeys(before) && RefsUnique(before.calls) ==>
      && ForeignKeys(after) && RefsUnique(after.calls) && before.calls.Keys <= after.calls.Keys
      && before.agents.Keys <= after.agents.Keys && before.borrowers.Keys <= after.borrowers.Keys
      && forall c :: Pullback.NoRing(before.calls, after.calls, c)
  }

  /** Where the sweep stands after i of its transactions. */
  ghost predicate SweepAt(start: Db, rows: seq<nat>, i: nat, wall: Time, env: (nat, Db) -> Db, campaign: nat,
                          db: Db, cancelled: nat)
  {
    && i <= |rows| && cancelled <= i
    && CallsRinging(db.calls, campaign) <= CallsRinging(start.calls, campaign) - Members(rows[..i])
    && (forall j :: i <= j < |rows| ==> RingsAs(db.calls, rows[j], campaign))
    && (Undisturbed(env) ==>
      cancelled == i && forall j :: i <= j < |rows| ==> rows[j] in db.calls && Unanswered(db.calls[rows[j]]))
    && var (after, t) := Swept(start, rows, i, wall, env, campaign);
    && after == db && t.cancelled == t.charged == cancelled
    && (Coherent(start) && KeepsCoherent(env) ==> Coherent(db) && t.freed == cancelled)
  }

  lemma SweepStarts(start: Db, rows: seq<nat>, wall: Time, env: (nat, Db) -> Db, campaign: nat)
    requires forall r :: r in rows ==> r in CallsRinging(start.calls, campaign)
    ensures SweepAt(start, rows, 0, wall, env, campaign, start, 0)
  {
    hide Coherent, KeepsCoherent;
    assert rows[..0] == [] && Members([]) == {};
    forall j | 0 <= j < |rows| ensures RingsAs(start.calls, rows[j], campaign)
      ensures rows[j] in start.calls && Unanswered(start.calls[rows[j]])
    {
      assert rows[j] in rows;
    }
  }

  lemma SweepKeepsRows(mid: Db, c: nat, wall: Time)
    requires ForeignKeys(mid) && c in mid.calls
    ensures TxCancel(mid, c, wall).calls.Keys == mid.calls.Keys
  {
  }

  /** The i-th gap and the i-th transaction. */
  lemma SweepGoesOn(start: Db, rows: seq<nat>, i: nat, wall: Time, env: (nat, Db) -> Db, campaign: nat,
                    db: Db, cancelled: nat)
    requires i < |rows| && Distinct(rows) && SweepAt(start, rows, i, wall, env, campaign, db, cancelled)
    requires var mid := env(i, db);
      && ForeignKeys(mid) && (forall r :: r in rows ==> r in mid.calls)
      && forall d :: Pullback.NoRing(db.calls, mid.calls, d)
    ensures var mid := env(i, db);
      SweepAt(start, rows, i + 1, wall, env, campaign, TxCancel(mid, rows[i], wall),
              if Unanswered(mid.calls[rows[i]]) then cancelled + 1 else cancelled)
  {
    hide Coherent, KeepsCoherent, TxCancel, ForeignKeys, Accounting.Idle, Accounting.TotalAttempts, Swept, RingsAs;
    hide CallsRinging, Distinct;
    var mid := env(i, db);
    var after := TxCancel(mid, rows[i], wall);
    SweepStep(db, mid, after, campaign, rows[i], wall);
    RingsAsBefore(db, mid, rows[i], campaign);
    SweptOneMore(start, rows, i, wall, env, campaign);
    CancelCounts(mid, rows[i], wall, campaign);
    if Coherent(start) && KeepsCoherent(env) {
      CoherentGap(env, i, db);
    }
    DistinctAt(rows, i);
    forall j | i + 1 <= j < |rows| ensures RingsAs(after.calls, rows[j], campaign) {
      RingsAsBefore(db, mid, rows[j], campaign);
      SameRings(mid.calls, after.calls, rows[j], campaign);
    }
    assert rows[..i + 1] == rows[..i] + [rows[i]];
  }

  lemma SweepEnds(start: Db, rows: seq<nat>, wall: Time, env: (nat, Db) -> Db, campaign: nat, db: Db, cancelled: nat)
    requires Distinct(rows) && SweepAt(start, rows, |rows|, wall, env, campaign, db, cancelled)
    requires forall r :: r in rows ==> r in CallsRinging(start.calls, campaign)
    ensures |CallsRinging(db.calls, campaign)| <= |CallsRinging(start.calls, campaign)| - |rows|
    ensures var (after, t) := Swept(start, rows, |rows|, wall, env, campaign);
      && after == db && cancelled == t.cancelled == t.charged <= |rows|
      && (Coherent(start) && KeepsCoherent(env) ==> t.freed == cancelled && Coherent(db))
    ensures Undisturbed(env) ==> cancelled == |rows|
  {
    hide Coherent, KeepsCoherent, Swept, CallsRinging, RingsAs;
    assert rows[..|rows|] == rows;
    DistinctSize(rows);
    RowsLeave(CallsRinging(start.calls, campaign), CallsRinging(db.calls, campaign), Members(rows));
  }
}
