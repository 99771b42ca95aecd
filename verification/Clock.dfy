/** The virtual clock of the simulator: a discrete-event queue (src/smartdialer/clock.py). A future is
    its registration number; heapq is the extraction of the least (deadline, number). */
module Clock {
  import Sizes

  datatype Waiter = Waiter(deadline: real, number: nat)

  datatype State = State(now: real, waiters: set<Waiter>, registered: nat)

  predicate Precedes(v: Waiter, w: Waiter) {
    v.deadline < w.deadline || (v.deadline == w.deadline && v.number < w.number)
  }

  predicate IsLeast(v: Waiter, ws: set<Waiter>) {
    v in ws && forall w :: w in ws && w != v ==> Precedes(v, w)
  }

  /** Futures are told apart by their number. */
  ghost predicate Numbered(ws: set<Waiter>) {
    forall v, w :: v in ws && w in ws && v.number == w.number ==> v == w
  }

  lemma {:induction false} LeastExists(ws: set<Waiter>)
    requires ws != {} && Numbered(ws)
    ensures exists v :: IsLeast(v, ws)
    decreases |ws|
  {
    var v :| v in ws;
    if ws == {v} {
      assert IsLeast(v, ws);
    } else {
      LeastExists(ws - {v});
      var u :| IsLeast(u, ws - {v});
      assert v.number != u.number;
      if Precedes(v, u) {
        forall w | w in ws && w != v ensures Precedes(v, w) {
          assert w in ws - {v};
        }
        assert IsLeast(v, ws);
      } else {
        assert IsLeast(u, ws);
      }
    }
  }

  ghost function Least(ws: set<Waiter>): (v: Waiter)
    requires ws != {} && Numbered(ws)
    ensures IsLeast(v, ws)
  {
    LeastExists(ws);
    var v :| IsLeast(v, ws);
    v
  }

  function Due(ws: set<Waiter>, t: real): set<Waiter> { set w | w in ws && w.deadline <= t }

  ghost function InOrder(ws: set<Waiter>): (s: seq<Waiter>)
    requires Numbered(ws)
    ensures forall w :: w in s <==> w in ws
    ensures Ordered(s)
    decreases |ws|
  {
    if ws == {} then [] else
    var v := Least(ws);
    [v] + InOrder(ws - {v})
  }

  predicate Ordered(s: seq<Waiter>) {
    forall i, j :: 0 <= i < j < |s| ==> Precedes(s[i], s[j])
  }

  // ---- the operations as functions

  function Slept(c: State, seconds: real): State {
    State(c.now, c.waiters + {Waiter(c.now + seconds, c.registered + 1)}, c.registered + 1)
  }

  ghost function Advanced(c: State): State
    requires Numbered(c.waiters)
  {
    if c.waiters == {} then c
    else var now := Least(c.waiters).deadline; c.(now := now, waiters := c.waiters - Due(c.waiters, now))
  }

  /** Who is woken by it, in order. */
  ghost function Woken(c: State): seq<Waiter>
    requires Numbered(c.waiters)
  {
    if c.waiters == {} then [] else InOrder(Due(c.waiters, Least(c.waiters).deadline))
  }

  /** With no new sleepers every advance strictly shrinks the queue. */
  lemma AdvanceShrinks(c: State)
    requires Numbered(c.waiters) && c.waiters != {}
    ensures |Advanced(c).waiters| < |c.waiters| && Numbered(Advanced(c).waiters)
    ensures Woken(c) != []
  {
    var v := Least(c.waiters);
    assert v in Due(c.waiters, v.deadline);
    assert v in Woken(c);
    assert Advanced(c).waiters <= c.waiters - {v};
    Sizes.SubsetSize(Advanced(c).waiters, c.waiters - {v});
  }

  function SleptAll(c: State, seconds: seq<real>): State {
    if seconds == [] then c else Slept(SleptAll(c, seconds[..|seconds| - 1]), seconds[|seconds| - 1])
  }

  /** Numbers are used once, and given out in order. */
  ghost predicate Sound(c: State) { Numbered(c.waiters) && forall w :: w in c.waiters ==> w.number <= c.registered }

  lemma {:induction false} SleptAllIsSound(c: State, seconds: seq<real>)
    requires Sound(c)
    ensures Sound(SleptAll(c, seconds)) && c.waiters <= SleptAll(c, seconds).waiters
    ensures SleptAll(c, seconds).now == c.now
  {
    if seconds != [] {
      SleptAllIsSound(c, seconds[..|seconds| - 1]);
    }
  }

  /** `joins(k)` are the sleeps that the tasks woken by the k-th advance go on to register; after `rounds`
      advances nobody registers any more. */
  ghost predicate Finite(joins: nat -> seq<real>, rounds: nat) { forall k: nat :: rounds <= k ==> joins(k) == [] }

  ghost function Ended(c: State, end: real, joins: nat -> seq<real>, k: nat, rounds: nat): State
    requires Sound(c) && Finite(joins, rounds)
    decreases if k < rounds then rounds - k else 0, |c.waiters|
  {
    if c.now < end && c.waiters != {} then
      AdvanceShrinks(c);
      SleptAllIsSound(Advanced(c), joins(k));
      Ended(SleptAll(Advanced(c), joins(k)), end, joins, k + 1, rounds)
    else c
  }

  datatype Wake = Wake(waiter: Waiter, at: real)

  function At(woken: seq<Waiter>, now: real): (log: seq<Wake>)
    ensures |log| == |woken| && forall i :: 0 <= i < |log| ==> log[i] == Wake(woken[i], now)
  {
    seq(|woken|, i requires 0 <= i < |woken| => Wake(woken[i], now))
  }

  /** The wake-ups on the way there. */
  ghost function WakesUntil(c: State, end: real, joins: nat -> seq<real>, k: nat, rounds: nat): seq<Wake>
    requires Sound(c) && Finite(joins, rounds)
    decreases if k < rounds then rounds - k else 0, |c.waiters|
  {
    if c.now < end && c.waiters != {} then
      AdvanceShrinks(c);
      SleptAllIsSound(Advanced(c), joins(k));
      At(Woken(c), Advanced(c).now) + WakesUntil(SleptAll(Advanced(c), joins(k)), end, joins, k + 1, rounds)
    else []
  }

  class VirtualClock {
    var now: real
    var waiters: set<Waiter>
    var registered: nat

    function Now(): State
      reads this
    {
      State(now, waiters, registered)
    }

    /** A number is used once. */
    ghost predicate Valid()
      reads this
    {
      Sound(Now())
    }

    constructor (start: real)
      ensures Valid() && Now() == State(start, {}, 0)
    {
      now, waiters, registered := start, {}, 0;
    }

    method Sleep(seconds: real)
      requires Valid()
      modifies this
      ensures Valid() && Now() == Slept(old(Now()), seconds)
    {
      registered := registered + 1;
      waiters := waiters + {Waiter(now + seconds, registered)};
    }

    method Pop() returns (v: Waiter)
      requires Valid() && waiters != {}
      modifies this`waiters
      ensures Valid() && v == Least(old(waiters)) && waiters == old(waiters) - {v}
    {
      LeastExists(waiters);
      v :| v in waiters && IsLeast(v, waiters);
      waiters := waiters - {v};
    }

    method Peek() returns (v: Waiter)
      requires Valid() && waiters != {}
      ensures v == Least(waiters)
    {
      LeastExists(waiters);
      v :| v in waiters && IsLeast(v, waiters);
    }

    /** Pops everyone due by now. */
    method WakeDue() returns (woken: seq<Waiter>)
      requires Valid()
      modifies this`waiters
      ensures Valid() && waiters == old(waiters) - Due(old(waiters), now)
      ensures woken == InOrder(Due(old(waiters), now))
    {
      hide InOrder, Ordered;
      woken := [];
      while waiters != {}
        invariant Valid() && waiters <= old(waiters)
        invariant woken + InOrder(Due(waiters, now)) == InOrder(Due(old(waiters), now))
        invariant waiters - Due(waiters, now) == old(waiters) - Due(old(waiters), now)
        decreases |waiters|
      {
        var next := Peek();
        if next.deadline > now {
          NobodyDue(waiters, now);
          return;
        }
        DueHead(waiters, now);
        next := Pop();
        woken := woken + [next];
      }
      NobodyDue({}, now);
    }

    method AdvanceToNext() returns (advanced: bool, woken: seq<Waiter>)
      requires Valid()
      modifies this
      ensures Valid() && advanced == (old(waiters) != {})
      ensures Now() == Advanced(old(Now())) && woken == Woken(old(Now()))
    {
      if waiters == {} {
        return false, [];
      }
      var first := Peek();
      now := first.deadline;
      woken := WakeDue();
      return true, woken;
    }

    /** Tasks register their next sleeps as soon as they have been woken. */
    method Rejoin(seconds: seq<real>)
      requires Valid()
      modifies this
      ensures Valid() && Now() == SleptAll(old(Now()), seconds)
    {
      for i := 0 to |seconds|
        invariant Valid() && Now() == SleptAll(old(Now()), seconds[..i])
      {
        assert seconds[..i + 1][..i] == seconds[..i];
        Sleep(seconds[i]);
      }
      assert seconds[..|seconds|] == seconds;
    }

    method RunUntil(end: real, joins: nat -> seq<real>, ghost rounds: nat) returns (ghost log: seq<Wake>)
      requires Valid() && Finite(joins, rounds)
      modifies this
      ensures Valid() && Now() == Ended(old(Now()), end, joins, 0, rounds)
      ensures log == WakesUntil(old(Now()), end, joins, 0, rounds)
    {
      hide Ended, WakesUntil, Advanced, Woken, SleptAll, Numbered;
      var k := 0;
      log := [];
      while now < end
        invariant Valid() && Ended(Now(), end, joins, k, rounds) == Ended(old(Now()), end, joins, 0, rounds)
        invariant log + WakesUntil(Now(), end, joins, k, rounds) == WakesUntil(old(Now()), end, joins, 0, rounds)
        decreases if k < rounds then rounds - k else 0, |waiters|
      {
        EndedGoesOn(Now(), end, joins, k, rounds);
        var advanced, woken := AdvanceToNext();
        if !advanced {
          break;
        }
        log := log + At(woken, now);
        Rejoin(joins(k));
        k := k + 1;
      }
      EndedGoesOn(Now(), end, joins, k, rounds);
    }
  }

  lemma EndedGoesOn(c: State, end: real, joins: nat -> seq<real>, k: nat, rounds: nat)
    requires Sound(c) && Finite(joins, rounds)
    ensures c.waiters == {} ==> Advanced(c) == c
    ensures if c.now < end && c.waiters != {} then
        var u := SleptAll(Advanced(c), joins(k));
        && Sound(u) && Ended(c, end, joins, k, rounds) == Ended(u, end, joins, k + 1, rounds)
        && WakesUntil(c, end, joins, k, rounds)
           == At(Woken(c), Advanced(c).now) + WakesUntil(u, end, joins, k + 1, rounds)
        && (k < rounds || |u.waiters| < |c.waiters|)
      else Ended(c, end, joins, k, rounds) == c && WakesUntil(c, end, joins, k, rounds) == []
  {
    if c.now < end && c.waiters != {} {
      AdvanceShrinks(c);
      SleptAllIsSound(Advanced(c), joins(k));
    }
  }

  /** The earliest waiter, if it is due, is the first of the due ones. */
  lemma DueHead(ws: set<Waiter>, t: real)
    requires ws != {} && Numbered(ws) && Least(ws).deadline <= t
    ensures var v := Least(ws);
      Due(ws - {v}, t) == Due(ws, t) - {v} && InOrder(Due(ws, t)) == [v] + InOrder(Due(ws - {v}, t))
  {
    var v := Least(ws);
    assert v in Due(ws, t) && Least(Due(ws, t)) == v;
    assert Due(ws - {v}, t) == Due(ws, t) - {v};
  }

  lemma NobodyDue(ws: set<Waiter>, t: real)
    requires Numbered(ws) && (ws != {} ==> Least(ws).deadline > t)
    ensures Due(ws, t) == {} && InOrder(Due(ws, t)) == []
  {
    if ws != {} {
      forall w | w in ws ensures w.deadline > t {
        assert w == Least(ws) || Precedes(Least(ws), w);
      }
    }
  }

  // ---- properties

  /** No registered deadline has been missed. */
  ghost predicate NoneOverdue(c: State) { forall w :: w in c.waiters ==> c.now <= w.deadline }

  /** A sleep keeps every deadline ahead if and only if it is not negative. */
  lemma SleepIsSafeIffNotNegative(c: State, seconds: real)
    requires NoneOverdue(c)
    ensures NoneOverdue(Slept(c, seconds)) <==> seconds >= 0.0
  {
    assert Waiter(c.now + seconds, c.registered + 1) in Slept(c, seconds).waiters;
  }

  /** An advance wakes exactly the sleepers of one deadline, at that deadline, and leaves none behind. */
  lemma WokenOnTime(c: State)
    requires Numbered(c.waiters)
    ensures Ordered(Woken(c)) && NoneOverdue(Advanced(c))
    ensures forall w :: w in Woken(c) <==> w in c.waiters && w.deadline == Advanced(c).now
    ensures forall w :: w in c.waiters <==> w in Woken(c) || w in Advanced(c).waiters
  {
    if c.waiters != {} {
      var v := Least(c.waiters);
      forall w | w in c.waiters ensures v.deadline <= w.deadline {
        assert w == v || Precedes(v, w);
      }
    }
  }

  /** Time goes backwards exactly when somebody registered a deadline in the past. */
  lemma TimeGoesBackIffOverdue(c: State)
    requires Numbered(c.waiters)
    ensures Advanced(c).now < c.now <==> !NoneOverdue(c)
  {
    if c.waiters != {} {
      var v := Least(c.waiters);
      forall w | w in c.waiters ensures v.deadline <= w.deadline {
        assert w == v || Precedes(v, w);
      }
    }
  }

  // ---- runs

  datatype Op = Sleep(seconds: real) | Advance

  datatype Run = Run(clock: State, log: seq<Wake>)

  ghost function Exec(r: Run, op: Op): Run
    requires Numbered(r.clock.waiters)
  {
    match op
    case Sleep(seconds) => r.(clock := Slept(r.clock, seconds))
    case Advance => Run(Advanced(r.clock), r.log + At(Woken(r.clock), Advanced(r.clock).now))
  }

  predicate LogOrdered(log: seq<Wake>) {
    forall i, j :: 0 <= i < j < |log| ==> Precedes(log[i].waiter, log[j].waiter)
  }

  ghost predicate Waits(c: State, n: nat) { exists w :: w in c.waiters && w.number == n }

  ghost predicate Wakened(log: seq<Wake>, n: nat) { exists i :: 0 <= i < |log| && log[i].waiter.number == n }

  /** Everyone woken so far was woken at their deadline, in order of deadline and then of registration;
      everyone still waiting comes after them, at a deadline that has not passed. */
  ghost predicate OnTime(r: Run) {
    && Numbered(r.clock.waiters) && NoneOverdue(r.clock) && LogOrdered(r.log)
    && (forall i :: 0 <= i < |r.log| ==> r.log[i].at == r.log[i].waiter.deadline <= r.clock.now)
    && (forall i, w :: 0 <= i < |r.log| && w in r.clock.waiters ==> Precedes(r.log[i].waiter, w))
    && (forall i :: 0 <= i < |r.log| ==> 1 <= r.log[i].waiter.number <= r.clock.registered)
    && (forall w :: w in r.clock.waiters ==> 1 <= w.number <= r.clock.registered)
  }

  /** Everyone who ever went to sleep is either waiting or has been woken. */
  ghost predicate NobodyLost(r: Run) {
    forall n :: 1 <= n <= r.clock.registered ==> Waits(r.clock, n) || Wakened(r.log, n)
  }

  ghost predicate Punctual(r: Run) { OnTime(r) && NobodyLost(r) }

  lemma SleepKeepsPunctual(r: Run, seconds: real)
    requires Punctual(r) && 0.0 <= seconds
    ensures Punctual(Exec(r, Sleep(seconds)))
  {
    var c, d := r.clock, Slept(r.clock, seconds);
    assert Waiter(c.now + seconds, c.registered + 1) in d.waiters;
    forall n | 1 <= n <= d.registered ensures Waits(d, n) || Wakened(r.log, n) {
      if n <= c.registered && Waits(c, n) {
        var w :| w in c.waiters && w.number == n;
        assert w in d.waiters;
      }
    }
  }

  lemma AdvanceStaysOnTime(r: Run)
    requires OnTime(r)
    ensures OnTime(Exec(r, Advance)) && r.clock.now <= Advanced(r.clock).now
  {
    var c, d, woken, log := r.clock, Advanced(r.clock), Woken(r.clock), Exec(r, Advance).log;
    WokenOnTime(c);
    TimeGoesBackIffOverdue(c);
    hide Advanced, Woken;
    forall i | |r.log| <= i < |log| ensures log[i] == Wake(woken[i - |r.log|], d.now) && log[i].waiter in woken {
    }
    forall i, j | 0 <= i < j < |log| ensures Precedes(log[i].waiter, log[j].waiter) {
      if |r.log| <= i {
        assert Precedes(woken[i - |r.log|], woken[j - |r.log|]);
      }
    }
    forall i, w | 0 <= i < |log| && w in d.waiters ensures Precedes(log[i].waiter, w) {
      assert w in c.waiters && w !in woken;
    }
  }

  lemma AdvanceLosesNobody(r: Run)
    requires Numbered(r.clock.waiters) && NobodyLost(r)
    ensures NobodyLost(Exec(r, Advance))
  {
    var c, d, woken, log := r.clock, Advanced(r.clock), Woken(r.clock), Exec(r, Advance).log;
    WokenOnTime(c);
    hide Woken, Numbered;
    forall n | 1 <= n <= d.registered ensures Waits(d, n) || Wakened(log, n) {
      if Waits(c, n) {
        var w :| w in c.waiters && w.number == n;
        if w in woken {
          var i :| 0 <= i < |woken| && woken[i] == w;
          assert log[|r.log| + i].waiter == w;
        }
      } else {
        var i :| 0 <= i < |r.log| && r.log[i].waiter.number == n;
        assert log[i] == r.log[i];
      }
    }
  }

  ghost predicate CanRun(ops: seq<Op>) {
    forall i :: 0 <= i < |ops| && ops[i].Sleep? ==> 0.0 <= ops[i].seconds
  }

  ghost function Resumed(r: Run, ops: seq<Op>): (v: Run)
    requires Punctual(r) && CanRun(ops)
    ensures Punctual(v)
  {
    if ops == [] then r
    else
      var before := Resumed(r, ops[..|ops| - 1]);
      ExecKeepsPunctual(before, ops[|ops| - 1]);
      Exec(before, ops[|ops| - 1])
  }

  ghost function RunAt(start: real, ops: seq<Op>): (r: Run)
    requires CanRun(ops)
    ensures Punctual(r)
  {
    Resumed(Run(State(start, {}, 0), []), ops)
  }

  lemma ExecKeepsPunctual(r: Run, op: Op)
    requires Punctual(r) && (op.Sleep? ==> 0.0 <= op.seconds)
    ensures Punctual(Exec(r, op)) && r.clock.now <= Exec(r, op).clock.now
    ensures r.log <= Exec(r, op).log
  {
    match op
    case Sleep(seconds) => SleepKeepsPunctual(r, seconds);
    case Advance =>
      AdvanceStaysOnTime(r);
      AdvanceLosesNobody(r);
  }

  /** Whatever sleeps are registered between the advances, time never goes back and no wake-up is undone. */
  lemma {:induction false} TimeNeverGoesBack(r: Run, ops: seq<Op>, k: nat)
    requires Punctual(r) && CanRun(ops) && k <= |ops|
    ensures Resumed(r, ops[..k]).clock.now <= Resumed(r, ops).clock.now
    ensures Resumed(r, ops[..k]).log <= Resumed(r, ops).log
    decreases |ops|
  {
    if k < |ops| {
      var before := ops[..|ops| - 1];
      assert before[..k] == ops[..k];
      TimeNeverGoesBack(r, before, k);
      ExecKeepsPunctual(Resumed(r, before), ops[|ops| - 1]);
    } else {
      assert ops[..k] == ops;
    }
  }

  /** Number n stands for that deadline, asleep or woken. */
  ghost predicate Means(r: Run, n: nat, deadline: real) {
    && n <= r.clock.registered
    && (forall w :: w in r.clock.waiters && w.number == n ==> w.deadline == deadline)
    && (forall i :: 0 <= i < |r.log| && r.log[i].waiter.number == n ==> r.log[i].waiter.deadline == deadline)
  }

  lemma ExecKeepsMeaning(r: Run, op: Op, n: nat, deadline: real)
    requires Punctual(r) && Means(r, n, deadline)
    ensures Means(Exec(r, op), n, deadline)
  {
    if op.Advance? {
      WokenOnTime(r.clock);
      var log, woken := Exec(r, op).log, Woken(r.clock);
      hide Advanced, Woken;
      forall i | 0 <= i < |log| && log[i].waiter.number == n ensures log[i].waiter.deadline == deadline {
        if i >= |r.log| {
          assert log[i].waiter in woken;
        }
      }
    }
  }

  lemma SleepMeans(r: Run, seconds: real)
    requires Punctual(r)
    ensures Means(Exec(r, Sleep(seconds)), r.clock.registered + 1, r.clock.now + seconds)
  {
  }

  lemma MeantIsKept(r: Run, n: nat, due: real)
    requires Punctual(r) && 1 <= n && Means(r, n, due)
    ensures Waits(r.clock, n) || Wakened(r.log, n)
    ensures forall j :: 0 <= j < |r.log| && r.log[j].waiter.number == n ==> r.log[j].at == due
  {
  }

  lemma {:induction false} MeaningLasts(r: Run, ops: seq<Op>, i: nat)
    requires Punctual(r) && CanRun(ops) && i < |ops| && ops[i].Sleep?
    ensures var before := Resumed(r, ops[..i]);
      Means(Resumed(r, ops), before.clock.registered + 1, before.clock.now + ops[i].seconds)
    decreases |ops|
  {
    hide Punctual, Means, Exec;
    var last := |ops| - 1;
    var front := ops[..last];
    var before := Resumed(r, ops[..i]);
    if i < last {
      assert front[..i] == ops[..i];
      MeaningLasts(r, front, i);
      ExecKeepsMeaning(Resumed(r, front), ops[last], before.clock.registered + 1, before.clock.now + ops[i].seconds);
    } else {
      SleepMeans(before, ops[i].seconds);
    }
  }

  /** Whoever goes to sleep is woken when their delay has passed since, or is still waiting for it. */
  lemma SleeperGetsItsDelay(r: Run, ops: seq<Op>, i: nat)
    requires Punctual(r) && CanRun(ops) && i < |ops| && ops[i].Sleep?
    ensures var (before, after) := (Resumed(r, ops[..i]), Resumed(r, ops));
      var (n, due) := (before.clock.registered + 1, before.clock.now + ops[i].seconds);
      && Means(after, n, due) && (Waits(after.clock, n) || Wakened(after.log, n))
      && forall j :: 0 <= j < |after.log| && after.log[j].waiter.number == n ==> after.log[j].at == due
  {
    hide Punctual, Means, Resumed, Waits, Wakened;
    MeaningLasts(r, ops, i);
    var before := Resumed(r, ops[..i]);
    MeantIsKept(Resumed(r, ops), before.clock.registered + 1, before.clock.now + ops[i].seconds);
  }

  ghost predicate NeverNegative(joins: nat -> seq<real>) {
    forall k: nat, i :: 0 <= i < |joins(k)| ==> 0.0 <= joins(k)[i]
  }

  /** The operations of `run_until`: advances, each followed by the sleeps it sets off. */
  ghost function OpsUntil(c: State, end: real, joins: nat -> seq<real>, k: nat, rounds: nat): seq<Op>
    requires Sound(c) && Finite(joins, rounds)
    decreases if k < rounds then rounds - k else 0, |c.waiters|
  {
    if c.now < end && c.waiters != {} then
      AdvanceShrinks(c);
      SleptAllIsSound(Advanced(c), joins(k));
      [Advance] + Sleeps(joins(k)) + OpsUntil(SleptAll(Advanced(c), joins(k)), end, joins, k + 1, rounds)
    else []
  }

  function Sleeps(seconds: seq<real>): (ops: seq<Op>)
    ensures |ops| == |seconds| && forall i :: 0 <= i < |ops| ==> ops[i] == Sleep(seconds[i])
  {
    seq(|seconds|, i requires 0 <= i < |seconds| => Sleep(seconds[i]))
  }

  lemma {:induction false} ResumedTwice(r: Run, ops: seq<Op>, more: seq<Op>)
    requires Punctual(r) && CanRun(ops) && CanRun(more)
    ensures CanRun(ops + more) && Resumed(r, ops + more) == Resumed(Resumed(r, ops), more)
    decreases |more|
  {
    hide Punctual, Exec;
    if more == [] {
      assert ops + more == ops;
    } else {
      var last := |more| - 1;
      ResumedTwice(r, ops, more[..last]);
      assert (ops + more)[..|ops| + last] == ops + more[..last];
    }
  }

  lemma {:induction false} RejoiningIsARun(r: Run, seconds: seq<real>)
    requires Punctual(r) && forall i :: 0 <= i < |seconds| ==> 0.0 <= seconds[i]
    ensures CanRun(Sleeps(seconds)) && Resumed(r, Sleeps(seconds)) == r.(clock := SleptAll(r.clock, seconds))
    decreases |seconds|
  {
    hide Punctual;
    if seconds != [] {
      var before := seconds[..|seconds| - 1];
      RejoiningIsARun(r, before);
      assert Sleeps(seconds)[..|seconds| - 1] == Sleeps(before);
    }
  }

  lemma RoundIsARun(r: Run, seconds: seq<real>)
    requires Punctual(r) && forall i :: 0 <= i < |seconds| ==> 0.0 <= seconds[i]
    ensures CanRun([Advance] + Sleeps(seconds))
    ensures Resumed(r, [Advance] + Sleeps(seconds))
            == Run(SleptAll(Advanced(r.clock), seconds), r.log + At(Woken(r.clock), Advanced(r.clock).now))
  {
    hide Punctual, Advanced, Woken, SleptAll;
    PunctualIsSound(r);
    ExecKeepsPunctual(r, Advance);
    ResumedOnce(r, Advance);
    RejoiningIsARun(Exec(r, Advance), seconds);
    ResumedTwice(r, [Advance], Sleeps(seconds));
  }

  lemma PunctualIsSound(r: Run)
    requires Punctual(r)
    ensures Sound(r.clock) && NoneOverdue(r.clock)
  {
  }

  lemma ResumedOnce(r: Run, op: Op)
    requires Punctual(r) && CanRun([op])
    ensures Resumed(r, [op]) == Exec(r, op)
  {
    hide Punctual, Exec;
    assert [op][..0] == [] && Resumed(r, []) == r;
  }

  /** Whatever its tasks register, `run_until` is a run of advances and sleeps: it ends at that run's clock,
      and its wake-ups are what that run adds to the log. So all that holds of runs holds of it, newcomers
      included: everyone is woken at their deadline, in order, and nobody is lost. */
  lemma {:induction false} RunUntilIsARun(r: Run, end: real, joins: nat -> seq<real>, k: nat, rounds: nat)
    requires Punctual(r) && Finite(joins, rounds) && NeverNegative(joins)
    ensures Sound(r.clock) && CanRun(OpsUntil(r.clock, end, joins, k, rounds))
    ensures var v := Resumed(r, OpsUntil(r.clock, end, joins, k, rounds));
      v.clock == Ended(r.clock, end, joins, k, rounds) && v.log == r.log + WakesUntil(r.clock, end, joins, k, rounds)
    decreases if k < rounds then rounds - k else 0, |r.clock.waiters|
  {
    hide Punctual, Advanced, Woken, SleptAll, Sound, Exec, At, Numbered;
    PunctualIsSound(r);
    var c := r.clock;
    if c.now < end && c.waiters != {} {
      RoundIsARun(r, joins(k));
      EndedGoesOn(c, end, joins, k, rounds);
      var round := [Advance] + Sleeps(joins(k));
      var u := Resumed(r, round);
      RunUntilIsARun(u, end, joins, k + 1, rounds);
      ResumedTwice(r, round, OpsUntil(u.clock, end, joins, k + 1, rounds));
    }
  }

  lemma {:induction false} SleptAllIsSafe(c: State, seconds: seq<real>)
    requires NoneOverdue(c) && forall i :: 0 <= i < |seconds| ==> 0.0 <= seconds[i]
    ensures NoneOverdue(SleptAll(c, seconds))
  {
    if seconds != [] {
      SleptAllIsSafe(c, seconds[..|seconds| - 1]);
    }
  }

  lemma {:induction false} NewcomersHaveNewNumbers(c: State, seconds: seq<real>, w: Waiter)
    requires Sound(c) && w.number <= c.registered
    ensures w in SleptAll(c, seconds).waiters <==> w in c.waiters
    ensures c.registered <= SleptAll(c, seconds).registered
  {
    if seconds != [] {
      NewcomersHaveNewNumbers(c, seconds[..|seconds| - 1], w);
    }
  }

  /** Whoever has been woken is not waiting again under the same number. */
  lemma {:induction false} WokenStayAway(c: State, end: real, joins: nat -> seq<real>, k: nat, rounds: nat, w: Waiter)
    requires Sound(c) && Finite(joins, rounds) && w !in c.waiters && w.number <= c.registered
    ensures w !in Ended(c, end, joins, k, rounds).waiters
    decreases if k < rounds then rounds - k else 0, |c.waiters|
  {
    if c.now < end && c.waiters != {} {
      AdvanceShrinks(c);
      var a := Advanced(c);
      SleptAllIsSound(a, joins(k));
      NewcomersHaveNewNumbers(a, joins(k), w);
      WokenStayAway(SleptAll(a, joins(k)), end, joins, k + 1, rounds, w);
    }
  }

  /** `run_until` never turns time back, ends at or past the end or with nobody waiting, and leaves nobody
      overdue. */
  lemma {:induction false} RunUntilStopsAtTheEnd(c: State, end: real, joins: nat -> seq<real>, k: nat, rounds: nat)
    requires Sound(c) && NoneOverdue(c) && Finite(joins, rounds) && NeverNegative(joins)
    ensures var d := Ended(c, end, joins, k, rounds);
      c.now <= d.now && (d.now >= end || d.waiters == {}) && NoneOverdue(d)
    decreases if k < rounds then rounds - k else 0, |c.waiters|
  {
    hide Advanced, SleptAll, Sound, NoneOverdue, Numbered, Ended;
    EndedGoesOn(c, end, joins, k, rounds);
    if c.now < end && c.waiters != {} {
      RoundIsSafe(c, joins(k));
      RunUntilStopsAtTheEnd(SleptAll(Advanced(c), joins(k)), end, joins, k + 1, rounds);
    }
  }

  lemma RoundIsSafe(c: State, seconds: seq<real>)
    requires Sound(c) && NoneOverdue(c) && forall i :: 0 <= i < |seconds| ==> 0.0 <= seconds[i]
    ensures Numbered(c.waiters)
    ensures var u := SleptAll(Advanced(c), seconds); c.now <= u.now && NoneOverdue(u)
  {
    WokenOnTime(c);
    TimeGoesBackIffOverdue(c);
    hide Advanced, Woken, NoneOverdue;
    AdvanceIsSound(c);
    SleptAllIsSound(Advanced(c), seconds);
    SleptAllIsSafe(Advanced(c), seconds);
  }

  lemma AdvanceIsSound(c: State)
    requires Sound(c)
    ensures Sound(Advanced(c))
  {
  }

  /** One round: waiter w is woken at its deadline, or waits on for a later one. */
  lemma RoundWakesOrNot(c: State, seconds: seq<real>, w: Waiter)
    requires Sound(c) && NoneOverdue(c) && w in c.waiters && forall i :: 0 <= i < |seconds| ==> 0.0 <= seconds[i]
    ensures Numbered(c.waiters)
    ensures var u := SleptAll(Advanced(c), seconds);
      && Sound(u) && NoneOverdue(u) && w.number <= u.registered
      && if w in u.waiters then u.now < w.deadline else u.now == w.deadline
  {
    AdvanceShrinks(c);
    WokenOnTime(c);
    var a := Advanced(c);
    SleptAllIsSound(a, seconds);
    SleptAllIsSafe(a, seconds);
    NewcomersHaveNewNumbers(a, seconds, w);
  }

  /** Of those waiting at the start it wakes exactly those due by the time it stops at, and it does not run
      past a deadline that lies at or beyond the end. */
  lemma {:induction false} RunUntilWakesWhoIsDue(c: State, end: real, joins: nat -> seq<real>, k: nat, rounds: nat,
                                                 w: Waiter)
    requires Sound(c) && NoneOverdue(c) && Finite(joins, rounds) && NeverNegative(joins)
    requires c.now < end && w in c.waiters
    ensures var d := Ended(c, end, joins, k, rounds);
      (w in d.waiters <==> d.now < w.deadline) && (end <= w.deadline ==> d.now <= w.deadline)
    decreases if k < rounds then rounds - k else 0, |c.waiters|
  {
    hide Advanced, SleptAll, Sound, NoneOverdue, Numbered, Ended;
    RoundWakesOrNot(c, joins(k), w);
    EndedGoesOn(c, end, joins, k, rounds);
    var u := SleptAll(Advanced(c), joins(k));
    EndedGoesOn(u, end, joins, k + 1, rounds);
    RunUntilStopsAtTheEnd(u, end, joins, k + 1, rounds);
    if w !in u.waiters {
      WokenStayAway(u, end, joins, k + 1, rounds, w);
    } else if u.now < end {
      RunUntilWakesWhoIsDue(u, end, joins, k + 1, rounds, w);
    }
  }
}
