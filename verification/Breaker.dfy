/** The circuit breaker in front of a provider (src/smartdialer/providers/breaker.py). */
module Breaker {
  import Sizes

  datatype Phase = Closed | Open | HalfOpen

  datatype Config = Config(window: real, threshold: real, minCalls: nat, cooldown: real, halfOpenProbes: nat)
  {
    predicate Sane() { 0.0 <= window && 1 <= minCalls && 1 <= halfOpenProbes }
  }

  datatype Outcome = Outcome(at: real, ok: bool)

  datatype View = View(phase: Phase, openedAt: real, probes: nat, events: seq<Outcome>)

  const FRESH: View := View(Closed, 0.0, 0, [])

  function Trimmed(events: seq<Outcome>, now: real, window: real): seq<Outcome> {
    if events != [] && now - events[0].at > window then Trimmed(events[1..], now, window) else events
  }

  function Errors(events: seq<Outcome>): nat {
    if events == [] then 0 else Errors(events[1..]) + if events[0].ok then 0 else 1
  }

  /** Too few outcomes to judge, or an error rate below the threshold. */
  predicate Quiet(c: Config, events: seq<Outcome>)
    requires 1 <= c.minCalls
  {
    |events| < c.minCalls || Errors(events) as real / |events| as real < c.threshold
  }

  function Opened(v: View, now: real): View { v.(phase := Open, openedAt := now, probes := 0) }

  function Recorded(c: Config, v: View, now: real, ok: bool): View
    requires c.Sane()
  {
    var u := v.(events := Trimmed(v.events + [Outcome(now, ok)], now, c.window));
    match u.phase
    case HalfOpen =>
      var tried := u.(probes := u.probes + 1);
      if !ok then Opened(tried, now)
      else if tried.probes >= c.halfOpenProbes then tried.(phase := Closed, events := [])
      else tried
    case Closed => if Quiet(c, u.events) then u else Opened(u, now)
    case Open => u
  }

  function Asked(c: Config, v: View, now: real): (View, bool) {
    match v.phase
    case Open =>
      if now >= v.openedAt + c.cooldown then (v.(phase := HalfOpen, probes := 0), true) else (v, false)
    case HalfOpen => (v, v.probes < c.halfOpenProbes)
    case Closed => (v, true)
  }

  class CircuitBreaker {
    const config: Config
    var phase: Phase
    var openedAt: real
    var probes: nat
    var events: seq<Outcome>

    function Now(): View
      reads this
    {
      View(phase, openedAt, probes, events)
    }

    constructor (config: Config)
      ensures this.config == config && Now() == FRESH
    {
      this.config := config;
      phase, openedAt, probes, events := Closed, 0.0, 0, [];
    }

    method Trim(now: real)
      modifies this`events
      ensures events == Trimmed(old(events), now, config.window)
    {
      while events != [] && now - events[0].at > config.window
        invariant Trimmed(events, now, config.window) == Trimmed(old(events), now, config.window)
        decreases |events|
      {
        events := events[1..];
      }
    }

    method Trip(now: real)
      modifies this
      ensures Now() == Opened(old(Now()), now)
    {
      phase, openedAt, probes := Open, now, 0;
    }

    method Record(now: real, ok: bool)
      requires config.Sane()
      modifies this
      ensures Now() == Recorded(config, old(Now()), now, ok)
    {
      events := events + [Outcome(now, ok)];
      Trim(now);
      if phase.HalfOpen? {
        probes := probes + 1;
        if !ok {
          Trip(now);
        } else if probes >= config.halfOpenProbes {
          phase, events := Closed, [];
        }
        return;
      }
      if phase.Closed? && |events| >= config.minCalls {
        if Errors(events) as real / |events| as real >= config.threshold {
          Trip(now);
        }
      }
    }

    method Allow(now: real) returns (allowed: bool)
      modifies this
      ensures (Now(), allowed) == Asked(config, old(Now()), now)
    {
      if phase.Open? {
        if now >= openedAt + config.cooldown {
          phase, probes := HalfOpen, 0;
          return true;
        }
        return false;
      }
      if phase.HalfOpen? {
        return probes < config.halfOpenProbes;
      }
      return true;
    }
  }

  // ---- runs

  datatype Op = Record(at: real, ok: bool) | Allow(at: real)

  function Exec(c: Config, v: View, op: Op): View
    requires c.Sane()
  {
    match op
    case Record(at, ok) => Recorded(c, v, at, ok)
    case Allow(at) => Asked(c, v, at).0
  }

  function ViewAt(c: Config, ops: seq<Op>, k: nat): View
    requires c.Sane() && k <= |ops|
  {
    if k == 0 then FRESH else Exec(c, ViewAt(c, ops, k - 1), ops[k - 1])
  }

  /** The results recorded since the breaker last entered half-open. */
  function Trial(c: Config, ops: seq<Op>, k: nat): seq<bool>
    requires c.Sane() && k <= |ops|
  {
    if k == 0 then []
    else if ViewAt(c, ops, k - 1).phase.Open? then []
    else if ops[k - 1].Record? then Trial(c, ops, k - 1) + [ops[k - 1].ok]
    else Trial(c, ops, k - 1)
  }

  ghost predicate AllOk(s: seq<bool>) { forall i :: 0 <= i < |s| ==> s[i] }

  /** A closed breaker always has too few outcomes in hand or an error rate below the threshold. */
  lemma {:induction false} ClosedMeansQuiet(c: Config, ops: seq<Op>, k: nat)
    requires c.Sane() && k <= |ops| && ViewAt(c, ops, k).phase.Closed?
    ensures Quiet(c, ViewAt(c, ops, k).events)
  {
    if k > 0 && ViewAt(c, ops, k - 1).phase.Closed? {
      ClosedMeansQuiet(c, ops, k - 1);
    }
  }

  predicate CooledDown(c: Config, op: Op, openedAt: real) { op.Allow? && op.at >= openedAt + c.cooldown }

  /** Open since the same instant, all the way from j to k. */
  ghost predicate StillOpen(c: Config, ops: seq<Op>, j: nat, k: nat)
    requires c.Sane() && j <= k <= |ops|
  {
    forall i :: j <= i <= k ==>
      ViewAt(c, ops, i).phase.Open? && ViewAt(c, ops, i).openedAt == ViewAt(c, ops, j).openedAt
  }

  /** An open breaker stays open exactly until it is asked at or after the end of its cooldown, whatever
      is recorded meanwhile. */
  lemma {:induction false} OpenLastsItsCooldown(c: Config, ops: seq<Op>, j: nat, k: nat)
    requires c.Sane() && j <= k <= |ops| && ViewAt(c, ops, j).phase.Open?
    ensures StillOpen(c, ops, j, k) <==> forall i :: j <= i < k ==> !CooledDown(c, ops[i], ViewAt(c, ops, j).openedAt)
    decreases k
  {
    if j < k {
      OpenLastsItsCooldown(c, ops, j, k - 1);
      if StillOpen(c, ops, j, k - 1) {
        assert ViewAt(c, ops, k) == Exec(c, ViewAt(c, ops, k - 1), ops[k - 1]);
        assert ViewAt(c, ops, k).phase.Open? <==> !CooledDown(c, ops[k - 1], ViewAt(c, ops, j).openedAt);
      } else {
        assert !StillOpen(c, ops, j, k);
      }
    }
  }

  /** Record j, which breached the threshold or was a failed probe, opened the breaker at `at`, and it
      has been open ever since. */
  ghost predicate OpenedAt(c: Config, ops: seq<Op>, j: nat, k: nat, at: real)
    requires c.Sane() && k <= |ops|
  {
    && j < k && ops[j].Record? && ops[j].at == at
    && !ViewAt(c, ops, j).phase.Open? && (ViewAt(c, ops, j).phase.HalfOpen? ==> !ops[j].ok)
    && forall i :: j < i <= k ==> ViewAt(c, ops, i).phase.Open?
  }

  /** opened_at is the time of the record that opened the breaker. */
  lemma {:induction false} OpenedByARecord(c: Config, ops: seq<Op>, k: nat)
    requires c.Sane() && k <= |ops| && ViewAt(c, ops, k).phase.Open?
    ensures exists j: nat :: OpenedAt(c, ops, j, k, ViewAt(c, ops, k).openedAt)
  {
    if k > 0 {
      var at := ViewAt(c, ops, k).openedAt;
      if ViewAt(c, ops, k - 1).phase.Open? {
        OpenedByARecord(c, ops, k - 1);
        var j: nat :| OpenedAt(c, ops, j, k - 1, ViewAt(c, ops, k - 1).openedAt);
        assert OpenedAt(c, ops, j, k, at);
      } else {
        assert OpenedAt(c, ops, k - 1, k, at);
      }
    }
  }

  lemma {:induction false} ProbesCountTheTrial(c: Config, ops: seq<Op>, k: nat)
    requires c.Sane() && k <= |ops| && ViewAt(c, ops, k).phase.HalfOpen?
    ensures ViewAt(c, ops, k).probes == |Trial(c, ops, k)| < c.halfOpenProbes && AllOk(Trial(c, ops, k))
  {
    if k > 0 && ViewAt(c, ops, k - 1).phase.HalfOpen? {
      ProbesCountTheTrial(c, ops, k - 1);
    }
  }

  /** Half-open closes only on the last of exactly half_open_probes results since it was entered, all
      of them successes; a single failure reopens it. */
  lemma HalfOpenClosesAfterAllProbes(c: Config, ops: seq<Op>, k: nat)
    requires c.Sane() && k < |ops| && ViewAt(c, ops, k).phase.HalfOpen?
    ensures ViewAt(c, ops, k + 1).phase.Closed? <==>
      ops[k].Record? && AllOk(Trial(c, ops, k + 1)) && |Trial(c, ops, k + 1)| == c.halfOpenProbes
    ensures ViewAt(c, ops, k + 1).phase.Open? <==> ops[k].Record? && !ops[k].ok
  {
    ProbesCountTheTrial(c, ops, k);
    if ops[k].Record? {
      assert Trial(c, ops, k + 1)[|Trial(c, ops, k)|] == ops[k].ok;
    }
  }

  // ---- the window

  ghost predicate InOrder(events: seq<Outcome>) {
    forall i, j :: 0 <= i < j < |events| ==> events[i].at <= events[j].at
  }

  /** On a clock that does not run backwards, trimming drops exactly the outcomes older than the window. */
  lemma {:induction false} TrimKeepsTheWindow(events: seq<Outcome>, now: real, window: real)
    requires InOrder(events)
    ensures var kept := Trimmed(events, now, window);
      && |kept| <= |events| && kept == events[|events| - |kept|..]
      && (forall i :: 0 <= i < |kept| ==> now - kept[i].at <= window)
      && (forall i :: 0 <= i < |events| - |kept| ==> now - events[i].at > window)
  {
    if events != [] && now - events[0].at > window {
      TrimKeepsTheWindow(events[1..], now, window);
    }
  }

  // ---- what opens a closed breaker

  function Failures(events: seq<Outcome>): set<nat> { set i | 0 <= i < |events| && !events[i].ok }

  lemma FailuresOfLast(events: seq<Outcome>)
    requires events != []
    ensures var n := |events| - 1;
      |Failures(events)| == |Failures(events[..n])| + if events[n].ok then 0 else 1
  {
    var n := |events| - 1;
    assert Failures(events) == if events[n].ok then Failures(events[..n]) else Failures(events[..n]) + {n};
  }

  lemma {:induction false} ErrorsOfLast(events: seq<Outcome>)
    requires events != []
    ensures Errors(events) == Errors(events[..|events| - 1]) + if events[|events| - 1].ok then 0 else 1
  {
    if |events| > 1 {
      ErrorsOfLast(events[1..]);
      assert events[1..][..|events| - 2] == events[..|events| - 1][1..];
    }
  }

  lemma {:induction false} ErrorsCountTheFailures(events: seq<Outcome>)
    ensures Errors(events) == |Failures(events)|
  {
    if events != [] {
      var n := |events| - 1;
      ErrorsCountTheFailures(events[..n]);
      ErrorsOfLast(events);
      FailuresOfLast(events);
      hide Errors, Failures;
    }
  }

  /** The clock of the process does not run backwards. */
  ghost predicate Timed(ops: seq<Op>) {
    forall i, j :: 0 <= i < j < |ops| ==> ops[i].at <= ops[j].at
  }

  /** Operation j, a successful last probe, closed the breaker and forgot every outcome. */
  predicate Closes(c: Config, ops: seq<Op>, j: nat)
    requires c.Sane() && j < |ops|
  {
    ViewAt(c, ops, j).phase.HalfOpen? && ViewAt(c, ops, j + 1).phase.Closed?
  }

  /** Record i is still remembered after k operations, for a window that ends at `now`. */
  ghost predicate Recent(c: Config, ops: seq<Op>, k: nat, now: real, i: nat)
    requires c.Sane() && k <= |ops|
  {
    i < k && ops[i].Record? && now - ops[i].at <= c.window && forall j :: i <= j < k ==> !Closes(c, ops, j)
  }

  /** The operations whose outcomes are at hand, oldest first. */
  ghost function Kept(c: Config, ops: seq<Op>, k: nat): seq<nat>
    requires c.Sane() && k <= |ops|
  {
    if k == 0 then []
    else if ops[k - 1].Allow? then Kept(c, ops, k - 1)
    else
      var (all, n) := (Kept(c, ops, k - 1) + [k - 1], |ViewAt(c, ops, k).events|);
      if n <= |all| then all[|all| - n..] else all
  }

  predicate Holds(ops: seq<Op>, kept: seq<nat>, events: seq<Outcome>) {
    && |kept| == |events|
    && (forall n :: 0 <= n < |kept| ==>
      kept[n] < |ops| && ops[kept[n]].Record? && events[n] == Outcome(ops[kept[n]].at, ops[kept[n]].ok))
    && forall m, n :: 0 <= m < n < |kept| ==> kept[m] < kept[n]
  }

  /** Every remembered record is at hand; those at hand are from before k and not forgotten. */
  ghost predicate Remembers(c: Config, ops: seq<Op>, k: nat, kept: seq<nat>)
    requires c.Sane() && k <= |ops|
  {
    && (forall i :: i in kept ==> i < k && forall j :: i <= j < k ==> !Closes(c, ops, j))
    && (forall i: nat, now: real :: Recent(c, ops, k, now, i) && (k > 0 ==> ops[k - 1].at <= now) ==> i in kept)
  }

  lemma OneMoreRecord(ops: seq<Op>, kept: seq<nat>, events: seq<Outcome>, k: nat)
    requires Timed(ops) && k < |ops| && ops[k].Record? && Holds(ops, kept, events) && forall i :: i in kept ==> i < k
    ensures Holds(ops, kept + [k], events + [Outcome(ops[k].at, ops[k].ok)])
    ensures InOrder(events + [Outcome(ops[k].at, ops[k].ok)])
  {
    assert forall n :: 0 <= n < |kept| ==> kept[n] in kept;
  }

  lemma SuffixHolds(ops: seq<Op>, kept: seq<nat>, events: seq<Outcome>, d: nat)
    requires Holds(ops, kept, events) && d <= |kept|
    ensures Holds(ops, kept[d..], events[d..])
  {
  }

  lemma RecordedEvents(c: Config, ops: seq<Op>, k: nat)
    requires c.Sane() && k < |ops| && ops[k].Record?
    ensures var events := Trimmed(ViewAt(c, ops, k).events + [Outcome(ops[k].at, ops[k].ok)], ops[k].at, c.window);
      ViewAt(c, ops, k + 1).events == if Closes(c, ops, k) then [] else events
  {
    hide Trimmed, Quiet;
  }

  lemma AskingKeepsEvents(c: Config, ops: seq<Op>, k: nat)
    requires c.Sane() && k < |ops| && ops[k].Allow?
    ensures ViewAt(c, ops, k + 1).events == ViewAt(c, ops, k).events && !Closes(c, ops, k)
  {
  }

  lemma RecentBefore(c: Config, ops: seq<Op>, k: nat, now: real, i: nat)
    requires c.Sane() && 0 < k <= |ops| && Recent(c, ops, k, now, i) && i < k - 1
    ensures Recent(c, ops, k - 1, now, i) && !Closes(c, ops, k - 1)
  {
  }

  lemma AskingRemembers(c: Config, ops: seq<Op>, k: nat)
    requires c.Sane() && 0 < k <= |ops| && Timed(ops) && ops[k - 1].Allow? && !Closes(c, ops, k - 1)
    requires Remembers(c, ops, k - 1, Kept(c, ops, k - 1))
    ensures Remembers(c, ops, k, Kept(c, ops, k))
  {
    hide Closes;
    var kept := Kept(c, ops, k);
    forall i: nat, now: real | Recent(c, ops, k, now, i) && ops[k - 1].at <= now ensures i in kept {
      assert i != k - 1;
      RecentBefore(c, ops, k, now, i);
    }
  }

  lemma RecordRemembers(c: Config, ops: seq<Op>, k: nat, d: nat)
    requires c.Sane() && 0 < k <= |ops| && Timed(ops) && ops[k - 1].Record?
    requires Remembers(c, ops, k - 1, Kept(c, ops, k - 1))
    requires var all := Kept(c, ops, k - 1) + [k - 1];
      && d <= |all| && Kept(c, ops, k) == all[d..] && (forall n :: 0 <= n < |all| ==> all[n] < |ops|)
      && if Closes(c, ops, k - 1) then d == |all|
         else forall n :: 0 <= n < d ==> ops[k - 1].at - ops[all[n]].at > c.window
    ensures Remembers(c, ops, k, Kept(c, ops, k))
  {
    hide Closes, ViewAt, Kept;
    var all, kept := Kept(c, ops, k - 1) + [k - 1], Kept(c, ops, k);
    forall i: nat, now: real | Recent(c, ops, k, now, i) && ops[k - 1].at <= now ensures i in kept {
      if i < k - 1 {
        RecentBefore(c, ops, k, now, i);
        assert i in Kept(c, ops, k - 1);
      }
      assert i in all;
      var n :| 0 <= n < |all| && all[n] == i;
      assert n >= d;
      assert kept[n - d] == i;
    }
    forall i | i in kept ensures i < k && forall j :: i <= j < k ==> !Closes(c, ops, j) {
      var n :| 0 <= n < |kept| && kept[n] == i;
      assert all[d + n] == i && i in all && !Closes(c, ops, k - 1);
      assert i != k - 1 ==> i in Kept(c, ops, k - 1);
    }
  }

  lemma KeptComesBefore(c: Config, ops: seq<Op>, k: nat, kept: seq<nat>)
    requires c.Sane() && k <= |ops| && Remembers(c, ops, k, kept)
    ensures forall i :: i in kept ==> i < k
  {
  }

  lemma TrimmedHolds(ops: seq<Op>, all: seq<nat>, events: seq<Outcome>, now: real, window: real)
    requires Holds(ops, all, events) && InOrder(events)
    ensures var kept := Trimmed(events, now, window);
      && |kept| <= |all| && Holds(ops, all[|all| - |kept|..], kept)
      && forall n :: 0 <= n < |all| - |kept| ==> all[n] < |ops| && now - ops[all[n]].at > window
  {
    hide InOrder, Trimmed;
    TrimKeepsTheWindow(events, now, window);
    SuffixHolds(ops, all, events, |events| - |Trimmed(events, now, window)|);
    assert forall n :: 0 <= n < |all| ==> events[n].at == ops[all[n]].at;
  }

  lemma IndicesAreInRange(ops: seq<Op>, kept: seq<nat>, events: seq<Outcome>)
    requires Holds(ops, kept, events)
    ensures |kept| == |events| && forall n :: 0 <= n < |kept| ==> kept[n] < |ops|
    ensures Holds(ops, [], [])
  {
  }

  lemma KeptIsASuffix(c: Config, ops: seq<Op>, k: nat, all: seq<nat>, d: nat)
    requires c.Sane() && 0 < k <= |ops| && ops[k - 1].Record? && all == Kept(c, ops, k - 1) + [k - 1]
    requires d <= |all| && d == |all| - |ViewAt(c, ops, k).events|
    ensures Kept(c, ops, k) == all[d..]
  {
    hide ViewAt;
  }

  lemma RecordHolds(c: Config, ops: seq<Op>, k: nat)
    requires c.Sane() && 0 < k <= |ops| && Timed(ops) && ops[k - 1].Record?
    requires Holds(ops, Kept(c, ops, k - 1), ViewAt(c, ops, k - 1).events)
    requires Remembers(c, ops, k - 1, Kept(c, ops, k - 1))
    ensures Holds(ops, Kept(c, ops, k), ViewAt(c, ops, k).events) && Remembers(c, ops, k, Kept(c, ops, k))
  {
    hide ViewAt, Kept, Trimmed, Closes, Timed, Remembers, Holds, InOrder;
    var before, at := ViewAt(c, ops, k - 1).events, ops[k - 1].at;
    var all, events := Kept(c, ops, k - 1) + [k - 1], before + [Outcome(at, ops[k - 1].ok)];
    RecordedEvents(c, ops, k - 1);
    KeptComesBefore(c, ops, k - 1, Kept(c, ops, k - 1));
    OneMoreRecord(ops, Kept(c, ops, k - 1), before, k - 1);
    IndicesAreInRange(ops, all, events);
    TrimmedHolds(ops, all, events, at, c.window);
    var d := |all| - |ViewAt(c, ops, k).events|;
    KeptIsASuffix(c, ops, k, all, d);
    if Closes(c, ops, k - 1) {
      assert all[d..] == [];
    }
    RecordRemembers(c, ops, k, d);
  }

  lemma {:induction false} KeptHolds(c: Config, ops: seq<Op>, k: nat)
    requires c.Sane() && k <= |ops| && Timed(ops)
    ensures Holds(ops, Kept(c, ops, k), ViewAt(c, ops, k).events) && Remembers(c, ops, k, Kept(c, ops, k))
  {
    if k > 0 {
      hide ViewAt, Closes, Holds, Timed, Remembers;
      KeptHolds(c, ops, k - 1);
      if ops[k - 1].Allow? {
        AskingKeepsEvents(c, ops, k - 1);
        AskingRemembers(c, ops, k);
      } else {
        RecordHolds(c, ops, k);
      }
    }
  }

  /** The records a breaker judges by after k operations: those within the window, since it last closed. */
  ghost function InWindow(c: Config, ops: seq<Op>, k: nat, now: real): set<nat>
    requires c.Sane() && k <= |ops|
  {
    set i | 0 <= i < k && Recent(c, ops, k, now, i)
  }

  lemma KeptIsRecent(c: Config, ops: seq<Op>, k: nat, kept: seq<nat>, events: seq<Outcome>)
    requires c.Sane() && 0 < k <= |ops| && Holds(ops, kept, events) && Remembers(c, ops, k, kept)
    requires forall n :: 0 <= n < |events| ==> ops[k - 1].at - events[n].at <= c.window
    ensures forall i :: i in kept <==> i in InWindow(c, ops, k, ops[k - 1].at)
  {
    hide ViewAt, Closes;
    forall i | i in kept ensures i in InWindow(c, ops, k, ops[k - 1].at) {
      var n :| 0 <= n < |kept| && kept[n] == i;
      assert events[n].at == ops[i].at;
    }
  }

  lemma KeptIsTheWindow(c: Config, ops: seq<Op>, k: nat)
    requires c.Sane() && Timed(ops) && k < |ops| && ops[k].Record? && !Closes(c, ops, k)
    ensures var (kept, events) := (Kept(c, ops, k + 1), ViewAt(c, ops, k + 1).events);
      Holds(ops, kept, events) && forall i :: i in kept <==> i in InWindow(c, ops, k + 1, ops[k].at)
  {
    hide ViewAt, Kept, Trimmed, Closes, Remembers, Holds, InWindow, Timed, InOrder;
    KeptHolds(c, ops, k);
    KeptHolds(c, ops, k + 1);
    RecordedEvents(c, ops, k);
    KeptComesBefore(c, ops, k, Kept(c, ops, k));
    OneMoreRecord(ops, Kept(c, ops, k), ViewAt(c, ops, k).events, k);
    TrimKeepsTheWindow(ViewAt(c, ops, k).events + [Outcome(ops[k].at, ops[k].ok)], ops[k].at, c.window);
    KeptIsRecent(c, ops, k + 1, Kept(c, ops, k + 1), ViewAt(c, ops, k + 1).events);
  }

  function FailedIn(ops: seq<Op>, kept: seq<nat>): set<nat> {
    set i | i in kept && i < |ops| && ops[i].Record? && !ops[i].ok
  }

  lemma LastHeld(ops: seq<Op>, kept: seq<nat>, events: seq<Outcome>)
    requires Holds(ops, kept, events) && kept != []
    ensures var n := |kept| - 1;
      && Holds(ops, kept[..n], events[..n]) && kept[n] !in kept[..n] && kept[n] < |ops|
      && ops[kept[n]].Record? && ops[kept[n]].ok == events[n].ok
  {
  }

  lemma FailedInOfLast(ops: seq<Op>, kept: seq<nat>)
    requires kept != [] && kept[|kept| - 1] !in kept[..|kept| - 1] && kept[|kept| - 1] < |ops|
    requires ops[kept[|kept| - 1]].Record?
    ensures var n := |kept| - 1;
      |FailedIn(ops, kept)| == |FailedIn(ops, kept[..n])| + if ops[kept[n]].ok then 0 else 1
  {
    var n := |kept| - 1;
    var (front, last) := (kept[..n], kept[n]);
    assert kept == front + [last];
    var before := FailedIn(ops, front);
    assert FailedIn(ops, kept) == if ops[last].ok then before else before + {last};
  }

  lemma {:induction false} KeptFailures(ops: seq<Op>, kept: seq<nat>, events: seq<Outcome>)
    requires Holds(ops, kept, events)
    ensures |Failures(events)| == |FailedIn(ops, kept)|
    decreases |kept|
  {
    if kept == [] {
      assert Failures(events) == {} && FailedIn(ops, kept) == {};
    } else {
      LastHeld(ops, kept, events);
      IndicesAreInRange(ops, kept, events);
      hide Holds, Failures, FailedIn;
      KeptFailures(ops, kept[..|kept| - 1], events[..|kept| - 1]);
      FailuresOfLast(events);
      FailedInOfLast(ops, kept);
    }
  }

  lemma KeptSize(ops: seq<Op>, kept: seq<nat>, events: seq<Outcome>, window: set<nat>)
    requires Holds(ops, kept, events) && forall i :: i in kept <==> i in window
    ensures |events| == |window|
  {
    Sizes.PrefixSize(kept, |kept|);
    assert window == set n | 0 <= n < |kept| :: kept[n];
  }

  lemma FailuresInWindow(ops: seq<Op>, kept: seq<nat>, events: seq<Outcome>, window: set<nat>)
    requires Holds(ops, kept, events) && forall i :: i in kept <==> i in window
    requires forall i :: i in window ==> i < |ops| && ops[i].Record?
    ensures |events| == |window| && |Failures(events)| == |set i | i in window && !ops[i].ok|
  {
    hide Holds, Failures;
    KeptSize(ops, kept, events, window);
    KeptFailures(ops, kept, events);
    assert FailedIn(ops, kept) == set i | i in window && !ops[i].ok;
  }

  lemma RecordOnClosed(c: Config, ops: seq<Op>, k: nat)
    requires c.Sane() && k < |ops| && ops[k].Record? && ViewAt(c, ops, k).phase.Closed?
    ensures !Closes(c, ops, k) && (ViewAt(c, ops, k + 1).phase.Open? <==> !Quiet(c, ViewAt(c, ops, k + 1).events))
  {
    hide Trimmed, Quiet;
  }

  lemma InWindowIsRecorded(c: Config, ops: seq<Op>, k: nat, now: real)
    requires c.Sane() && k <= |ops|
    ensures forall i :: i in InWindow(c, ops, k, now) ==> i < |ops| && ops[i].Record?
  {
  }

  /** A record opens a closed breaker exactly if, of the outcomes recorded within the window since it last
      closed, there are at least `min_calls` and at least the threshold's share are failures. */
  lemma ClosedBreakerOpensIff(c: Config, ops: seq<Op>, k: nat)
    requires c.Sane() && Timed(ops) && k < |ops| && ops[k].Record? && ViewAt(c, ops, k).phase.Closed?
    ensures var window := InWindow(c, ops, k + 1, ops[k].at);
      ViewAt(c, ops, k + 1).phase.Open? <==>
        && |window| >= c.minCalls
        && |set i | i in window && !ops[i].ok| as real >= c.threshold * |window| as real
  {
    hide ViewAt, Kept, Closes, Holds, InWindow, Timed, Errors, Failures;
    var window, events := InWindow(c, ops, k + 1, ops[k].at), ViewAt(c, ops, k + 1).events;
    RecordOnClosed(c, ops, k);
    KeptIsTheWindow(c, ops, k);
    InWindowIsRecorded(c, ops, k + 1, ops[k].at);
    FailuresInWindow(ops, Kept(c, ops, k + 1), events, window);
    ErrorsCountTheFailures(events);
    if |events| >= c.minCalls {
      RateReaches(Errors(events) as real, |events| as real, c.threshold);
    }
  }

  lemma RateReaches(errors: real, n: real, threshold: real)
    requires n > 0.0
    ensures errors / n < threshold <==> errors < threshold * n
  {
    var rate := errors / n;
    assert rate * n == errors;
    if rate < threshold {
      assert rate * n < threshold * n;
    } else {
      assert rate * n >= threshold * n;
    }
  }

  /** A call is refused exactly while the breaker is open and cooling down: half-open, it always has a
      probe left. */
  lemma RefusesIffCooling(c: Config, ops: seq<Op>, k: nat, at: real)
    requires c.Sane() && k <= |ops|
    ensures var v := ViewAt(c, ops, k);
      Asked(c, v, at).1 <==> !(v.phase.Open? && at < v.openedAt + c.cooldown)
  {
    if ViewAt(c, ops, k).phase.HalfOpen? {
      ProbesCountTheTrial(c, ops, k);
    }
  }
}
