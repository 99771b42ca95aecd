/** The safety controller: every rule runs and the least cap wins (src/smartdialer/safety). */
module Safety {
  import opened Domain

  datatype Limits = Limits(
    maxOverdialRatio: real, absMaxOverdialRatio: real, maxAbandonRate: real,
    minSamples: int, ringingHardCap: int, cooldownTicks: int)

  /** `SafetyLimits.__post_init__`: a configuration can only tighten the two rates. */
  function Clamped(l: Limits): Limits {
    l.(maxOverdialRatio :=
         if l.maxOverdialRatio <= l.absMaxOverdialRatio then l.maxOverdialRatio else l.absMaxOverdialRatio,
       maxAbandonRate := if l.maxAbandonRate <= 0.05 then l.maxAbandonRate else 0.05)
  }

  predicate IsLesser(x: real, y: real, z: real) { x <= y && x <= z && (x == y || x == z) }

  /** The part of MetricsSnapshot the rules read; `health` holds the values of provider_health. */
  datatype Metrics = Metrics(
    available: nat, reserved: nat, dialing: nat, connected: nat, wrapup: nat, ringing: nat,
    samples: int, abandonRate: real, active: bool, health: seq<real>)
  {
    function Inflight(): nat { reserved + dialing }

    function Staffed(): nat { available + reserved + dialing + connected + wrapup }

    function Progressive(): nat { if available > Inflight() then available - Inflight() else 0 }
  }

  datatype Rule =
    | CampaignActive | NoAgents | Cooldown | InsufficientSamples
    | ProviderHealth | AbandonBudget | OverdialCap | RingingHardCap

  datatype Reason = OK | Because(rule: Rule)

  const RULES: seq<Rule> := [CampaignActive, NoAgents, Cooldown, InsufficientSamples,
                             ProviderHealth, AbandonBudget, OverdialCap, RingingHardCap]

  /** Python's int(): toward zero. */
  function Trunc(x: real): int { if x >= 0.0 then x.Floor else -(-x).Floor }

  function Min(a: int, b: int): int { if a <= b then a else b }

  function Max(a: int, b: int): int { if a <= b then b else a }

  function Best(health: seq<real>): real {
    if health == [] then 1.0
    else if |health| == 1 then health[0]
    else var rest := Best(health[1..]); if health[0] >= rest then health[0] else rest
  }

  predicate Breach(m: Metrics, l: Limits) { m.abandonRate > l.maxAbandonRate }

  function Ceiling(m: Metrics, l: Limits): int { Trunc(m.Staffed() as real * l.maxOverdialRatio) }

  /** The cap a rule imposes, if any; `left` is the number of cooldown ticks still to run. */
  function Outcome(r: Rule, n: int, m: Metrics, l: Limits, left: int): Option<int> {
    match r
    case CampaignActive => if !m.active then Some(0) else None
    case NoAgents => if m.available <= 0 then Some(0) else None
    case Cooldown => if left > 0 then Some(Min(n, m.Progressive())) else None
    case InsufficientSamples => if m.samples < l.minSamples then Some(Min(n, m.Progressive())) else None
    case ProviderHealth =>
      var best := Best(m.health);
      if best <= 0.0 then Some(0)
      else if best < 0.6 then Some(Min(n, Trunc(n as real * best)))
      else None
    case AbandonBudget => if Breach(m, l) then Some(Min(n, m.Progressive())) else None
    case OverdialCap =>
      var allowed := Max(0, Ceiling(m, l) - m.Inflight() - m.ringing);
      if n > allowed then Some(allowed) else None
    case RingingHardCap =>
      var allowed := Max(0, l.ringingHardCap - m.ringing);
      if n > allowed then Some(allowed) else None
  }

  function CapOf(r: Rule, n: int, m: Metrics, l: Limits, left: int): int {
    var out := Outcome(r, n, m, l, left);
    if out.Some? then out.value else n
  }

  /** The least of n and all eight caps, each taken with the cooldown the tick started with. */
  function LeastCap(rules: seq<Rule>, n: int, m: Metrics, l: Limits, left: int): int {
    if rules == [] then n
    else Min(CapOf(rules[|rules| - 1], n, m, l, left), LeastCap(rules[..|rules| - 1], n, m, l, left))
  }

  function NextLeft(m: Metrics, l: Limits, left: int): int {
    var tripped := if Breach(m, l) then l.cooldownTicks else left;
    if tripped > 0 then tripped - 1 else tripped
  }

  /** Rule r is the first in the order whose cap is the minimum. */
  ghost predicate FirstAttaining(rules: seq<Rule>, r: Rule, least: int, n: int, m: Metrics, l: Limits, left: int) {
    exists k :: 0 <= k < |rules| && rules[k] == r && CapOf(r, n, m, l, left) == least
      && forall j :: 0 <= j < k ==> CapOf(rules[j], n, m, l, left) > least
  }

  class SafetyController {
    const limits: Limits
    var cooldownTicksLeft: int

    constructor (configured: Limits)
      ensures limits == Clamped(configured) && cooldownTicksLeft == 0
      ensures IsLesser(limits.maxOverdialRatio, configured.maxOverdialRatio, configured.absMaxOverdialRatio)
      ensures IsLesser(limits.maxAbandonRate, configured.maxAbandonRate, 0.05)
    {
      limits := Clamped(configured);
      cooldownTicksLeft := 0;
    }

    /** The rule, with its side effect: a breached abandon budget trips the cooldown. */
    method Consult(r: Rule, n: int, m: Metrics) returns (out: Option<int>)
      modifies this
      ensures out == Outcome(r, n, m, limits, old(cooldownTicksLeft))
      ensures cooldownTicksLeft == if r.AbandonBudget? && Breach(m, limits) then limits.cooldownTicks
                                   else old(cooldownTicksLeft)
    {
      out := Outcome(r, n, m, limits, cooldownTicksLeft);
      if r.AbandonBudget? && out.Some? {
        cooldownTicksLeft := limits.cooldownTicks;
      }
    }

    /** The rules may be consulted in any order, although one of them writes what another reads. */
    method Evaluate(n: int, m: Metrics, rules: seq<Rule>) returns (approved: int, reason: Reason)
      requires forall r: Rule :: r in rules
      modifies this
      ensures approved == Max(0, LeastCap(rules, n, m, limits, old(cooldownTicksLeft)))
      ensures cooldownTicksLeft == NextLeft(m, limits, old(cooldownTicksLeft))
      ensures var least := LeastCap(rules, n, m, limits, old(cooldownTicksLeft));
        if least == n then reason == OK
        else reason.Because? && FirstAttaining(rules, reason.rule, least, n, m, limits, old(cooldownTicksLeft))
    {
      hide Outcome, CapOf, FirstAttaining;
      ghost var left := cooldownTicksLeft;
      approved, reason := n, OK;
      for i := 0 to |rules|
        invariant approved == LeastCap(rules[..i], n, m, limits, left) && approved <= n
        invariant cooldownTicksLeft == if Tripped(rules[..i], m, limits) then limits.cooldownTicks
                                       else left
        invariant if approved == n then reason == OK
                  else reason.Because? && FirstAttaining(rules[..i], reason.rule, approved, n, m, limits, left)
        invariant forall j :: 0 <= j < i ==> approved <= CapOf(rules[j], n, m, limits, left)
        invariant Tripped(rules[..i], m, limits) ==> approved <= m.Progressive()
      {
        ConsultedNext(rules, i, approved, n, m, limits, left, cooldownTicksLeft);
        var out := Consult(rules[i], n, m);
        if out.Some? && out.value < approved {
          approved, reason := out.value, Because(rules[i]);
          FirstIsLast(rules, i, approved, n, m, limits, left);
        } else if reason.Because? {
          ExtendFirst(rules, i, reason.rule, approved, n, m, limits, left);
        }
      }
      assert rules[..|rules|] == rules;
      approved := Max(0, Min(approved, n));
      if cooldownTicksLeft > 0 {
        cooldownTicksLeft := cooldownTicksLeft - 1;
      }
    }
  }

  predicate Tripped(rules: seq<Rule>, m: Metrics, l: Limits) { AbandonBudget in rules && Breach(m, l) }

  /** One rule more. The cooldown the abandon budget may have tripped only repeats the cap it imposed. */
  lemma ConsultedNext(rules: seq<Rule>, i: nat, approved: int, n: int, m: Metrics, l: Limits, left: int, current: int)
    requires i < |rules| && approved == LeastCap(rules[..i], n, m, l, left) && approved <= n
    requires current == if Tripped(rules[..i], m, l) then l.cooldownTicks else left
    requires Tripped(rules[..i], m, l) ==> approved <= m.Progressive()
    ensures rules[..i + 1] == rules[..i] + [rules[i]]
    ensures var out := Outcome(rules[i], n, m, l, current);
      var next := if out.Some? && out.value < approved then out.value else approved;
      && next == LeastCap(rules[..i + 1], n, m, l, left) && next <= n
      && (next < approved ==> next == CapOf(rules[i], n, m, l, left))
      && next <= CapOf(rules[i], n, m, l, left)
      && (Tripped(rules[..i + 1], m, l) ==> next <= m.Progressive())
  {
    assert rules[..i + 1][..i] == rules[..i];
    hide Best, Trunc, Ceiling;
  }

  lemma FirstIsLast(rules: seq<Rule>, i: nat, least: int, n: int, m: Metrics, l: Limits, left: int)
    requires i < |rules| && CapOf(rules[i], n, m, l, left) == least
    requires forall j :: 0 <= j < i ==> CapOf(rules[j], n, m, l, left) > least
    ensures FirstAttaining(rules[..i + 1], rules[i], least, n, m, l, left)
  {
    hide CapOf;
    assert rules[..i + 1][i] == rules[i];
  }

  lemma ExtendFirst(rules: seq<Rule>, i: nat, r: Rule, least: int, n: int, m: Metrics, l: Limits, left: int)
    requires i < |rules| && FirstAttaining(rules[..i], r, least, n, m, l, left)
    ensures FirstAttaining(rules[..i + 1], r, least, n, m, l, left)
  {
    hide CapOf;
    var k :| 0 <= k < i && rules[..i][k] == r && CapOf(r, n, m, l, left) == least
      && forall j :: 0 <= j < k ==> CapOf(rules[..i][j], n, m, l, left) > least;
    assert forall j :: 0 <= j <= k ==> rules[..i + 1][j] == rules[..i][j];
  }

  // ---- what the approved number is

  /** LeastCap is the minimum of n and the caps: below all of them and equal to one. */
  lemma {:induction false} LeastCapIsMinimum(rules: seq<Rule>, n: int, m: Metrics, l: Limits, left: int)
    ensures var least := LeastCap(rules, n, m, l, left);
      && least <= n && (forall r :: r in rules ==> least <= CapOf(r, n, m, l, left))
      && (least == n || exists r :: r in rules && least == CapOf(r, n, m, l, left))
  {
    if rules != [] {
      var k := |rules| - 1;
      LeastCapIsMinimum(rules[..k], n, m, l, left);
      assert rules == rules[..k] + [rules[k]];
      hide CapOf;
    }
  }

  /** Reordering the rules changes no approval, whatever the cooldown and however the tick is breached. */
  lemma OrderIsIrrelevant(p: seq<Rule>, q: seq<Rule>, n: int, m: Metrics, l: Limits, left: int)
    requires forall r: Rule :: r in p <==> r in q
    ensures LeastCap(p, n, m, l, left) == LeastCap(q, n, m, l, left)
  {
    hide CapOf, LeastCap;
    LeastCapIsMinimum(p, n, m, l, left);
    LeastCapIsMinimum(q, n, m, l, left);
  }

  lemma CapsAreNatural(r: Rule, n: int, m: Metrics, l: Limits, left: int)
    requires 0 <= n
    ensures 0 <= CapOf(r, n, m, l, left) <= n
  {
    if r.ProviderHealth? {
      var best := Best(m.health);
      if 0.0 < best {
        assert n as real * best >= 0.0;
      }
    }
  }

  /** What one tick approves, with the rules in their source order. */
  function Approved(n: int, m: Metrics, l: Limits, left: int): int {
    Max(0, LeastCap(RULES, n, m, l, left))
  }

  lemma EveryRuleListed()
    ensures forall r: Rule :: r in RULES
  {
    forall r: Rule ensures r in RULES {
      match r
      case CampaignActive => assert RULES[0] == r;
      case NoAgents => assert RULES[1] == r;
      case Cooldown => assert RULES[2] == r;
      case InsufficientSamples => assert RULES[3] == r;
      case ProviderHealth => assert RULES[4] == r;
      case AbandonBudget => assert RULES[5] == r;
      case OverdialCap => assert RULES[6] == r;
      case RingingHardCap => assert RULES[7] == r;
    }
  }

  /** A natural request is approved up to exactly the least cap, and never beyond itself. */
  lemma ApprovalIsTheMinimum(n: int, m: Metrics, l: Limits, left: int)
    requires 0 <= n
    ensures 0 <= Approved(n, m, l, left) <= n
    ensures forall r: Rule :: Approved(n, m, l, left) <= CapOf(r, n, m, l, left)
    ensures Approved(n, m, l, left) == n || exists r: Rule :: Approved(n, m, l, left) == CapOf(r, n, m, l, left)
  {
    EveryRuleListed();
    LeastCapIsMinimum(RULES, n, m, l, left);
    forall r: Rule ensures 0 <= CapOf(r, n, m, l, left) {
      CapsAreNatural(r, n, m, l, left);
    }
    hide CapOf, LeastCap;
  }

  // ---- the eight caps in the snapshot's own terms

  predicate IsGreatest(best: real, health: seq<real>) {
    if health == [] then best == 1.0
    else best in health && forall i :: 0 <= i < |health| ==> health[i] <= best
  }

  predicate IsLeast(x: int, s: seq<int>) { x in s && forall i :: 0 <= i < |s| ==> x <= s[i] }

  /** n, and what each rule leaves of it. `best` is the health of the best provider, `share` that share of
      n, and `ceiling` what the staff may dial. */
  function CapsOn(n: nat, m: Metrics, l: Limits, left: int, best: real, share: int, ceiling: int): seq<int> {
    var spare := Max(0, m.available - (m.reserved + m.dialing));
    [n,
     if m.active then n else 0,
     if m.available > 0 then n else 0,
     if left > 0 then spare else n,
     if m.samples < l.minSamples then spare else n,
     if best <= 0.0 then 0 else if best < 0.6 then share else n,
     if m.abandonRate > l.maxAbandonRate then spare else n,
     Max(0, ceiling - (m.reserved + m.dialing) - m.ringing),
     Max(0, l.ringingHardCap - m.ringing)]
  }

  lemma {:induction false} BestIsGreatest(health: seq<real>)
    ensures IsGreatest(Best(health), health)
  {
    if |health| > 1 {
      BestIsGreatest(health[1..]);
    }
  }

  lemma GreatestIsUnique(x: real, y: real, health: seq<real>)
    requires IsGreatest(x, health) && IsGreatest(y, health)
    ensures x == y
  {
  }

  function Place(r: Rule): nat {
    match r
    case CampaignActive => 1 case NoAgents => 2 case Cooldown => 3 case InsufficientSamples => 4
    case ProviderHealth => 5 case AbandonBudget => 6 case OverdialCap => 7 case RingingHardCap => 8
  }

  lemma RoundsDown(x: real, taken: nat)
    ensures Max(0, Trunc(x) - taken) == Max(0, x.Floor - taken)
    ensures 0.0 <= x ==> Trunc(x) == x.Floor >= 0
  {
  }

  lemma ShareIsNatural(n: nat, best: real)
    requires 0.0 < best
    ensures n as real * best >= 0.0
  {
  }

  lemma SameProduct(m: int, n: int, x: real)
    requires m == n
    ensures m as real * x == n as real * x
  {
  }

  lemma CeilingIsLeft(m: Metrics, l: Limits, staffed: nat)
    requires staffed == m.available + m.reserved + m.dialing + m.connected + m.wrapup
    ensures var dialled := staffed as real * l.maxOverdialRatio;
      Max(0, Ceiling(m, l) - m.Inflight() - m.ringing) == Max(0, dialled.Floor - (m.reserved + m.dialing) - m.ringing)
  {
    SameProduct(m.Staffed(), staffed, l.maxOverdialRatio);
    var dialled := staffed as real * l.maxOverdialRatio;
    assert Ceiling(m, l) == Trunc(dialled);
    RoundsDown(dialled, m.reserved + m.dialing + m.ringing);
  }

  /** Taken off, the ceiling is the product rounded down, whatever its sign. */
  lemma CeilingRoundsDown(m: Metrics, l: Limits, staffed: nat)
    requires staffed == m.available + m.reserved + m.dialing + m.connected + m.wrapup
    ensures Max(0, Ceiling(m, l) - m.Inflight())
            == Max(0, (staffed as real * l.maxOverdialRatio).Floor - (m.reserved + m.dialing))
  {
    SameProduct(m.Staffed(), staffed, l.maxOverdialRatio);
    var dialled := staffed as real * l.maxOverdialRatio;
    assert Ceiling(m, l) == Trunc(dialled);
    RoundsDown(dialled, m.reserved + m.dialing);
  }

  lemma HealthCap(n: nat, m: Metrics, l: Limits, left: int, best: real, share: real)
    requires best == Best(m.health) && share == n as real * best
    ensures CapOf(ProviderHealth, n, m, l, left)
            == if best <= 0.0 then 0 else if best < 0.6 then Min(n, share.Floor) else n
  {
    if 0.0 < best {
      ShareIsNatural(n, best);
      RoundsDown(share, 0);
      assert Trunc(n as real * best) == share.Floor;
    }
  }

  lemma CapIsItsOwn(r: Rule, n: nat, m: Metrics, l: Limits, left: int, share: int, ceiling: int)
    requires CapOf(ProviderHealth, n, m, l, left)
             == if Best(m.health) <= 0.0 then 0 else if Best(m.health) < 0.6 then Min(n, share) else n
    requires Max(0, Ceiling(m, l) - m.Inflight() - m.ringing) == Max(0, ceiling - (m.reserved + m.dialing) - m.ringing)
    ensures var caps := CapsOn(n, m, l, left, Best(m.health), share, ceiling);
      |caps| == 9 && caps[0] == n && Min(n, caps[Place(r)]) == CapOf(r, n, m, l, left)
  {
    hide Best, Ceiling, Trunc;
    if r.ProviderHealth? {
      hide CapOf;
    }
  }

  /** The approved number is the least of the request and the eight caps. */
  lemma ApprovalIsTheLeastCap(n: nat, m: Metrics, l: Limits, left: int, best: real, staffed: nat)
    requires IsGreatest(best, m.health) && staffed == m.available + m.reserved + m.dialing + m.connected + m.wrapup
    ensures var (share, ceiling) := ((n as real * best).Floor, (staffed as real * l.maxOverdialRatio).Floor);
      IsLeast(Approved(n, m, l, left), CapsOn(n, m, l, left, best, share, ceiling))
  {
    hide Approved, CapOf, CapsOn, Best, IsGreatest, Ceiling, IsLeast;
    BestIsGreatest(m.health);
    GreatestIsUnique(best, Best(m.health), m.health);
    HealthCap(n, m, l, left, best, n as real * best);
    var share, ceiling := (n as real * best).Floor, (staffed as real * l.maxOverdialRatio).Floor;
    CeilingIsLeft(m, l, staffed);
    LeastOfTheCaps(n, m, l, left, share, ceiling);
  }

  lemma LeastOfTheCaps(n: nat, m: Metrics, l: Limits, left: int, share: int, ceiling: int)
    requires CapOf(ProviderHealth, n, m, l, left)
             == if Best(m.health) <= 0.0 then 0 else if Best(m.health) < 0.6 then Min(n, share) else n
    requires Max(0, Ceiling(m, l) - m.Inflight() - m.ringing) == Max(0, ceiling - (m.reserved + m.dialing) - m.ringing)
    ensures IsLeast(Approved(n, m, l, left), CapsOn(n, m, l, left, Best(m.health), share, ceiling))
  {
    hide Approved, CapOf, CapsOn, Best, Ceiling, IsLeast;
    ApprovalIsTheMinimum(n, m, l, left);
    CapIsItsOwn(CampaignActive, n, m, l, left, share, ceiling);
    CapIsItsOwn(NoAgents, n, m, l, left, share, ceiling);
    CapIsItsOwn(Cooldown, n, m, l, left, share, ceiling);
    CapIsItsOwn(InsufficientSamples, n, m, l, left, share, ceiling);
    CapIsItsOwn(ProviderHealth, n, m, l, left, share, ceiling);
    CapIsItsOwn(AbandonBudget, n, m, l, left, share, ceiling);
    CapIsItsOwn(OverdialCap, n, m, l, left, share, ceiling);
    CapIsItsOwn(RingingHardCap, n, m, l, left, share, ceiling);
    var approved, caps := Approved(n, m, l, left), CapsOn(n, m, l, left, Best(m.health), share, ceiling);
    if approved != n {
      var r: Rule :| approved == CapOf(r, n, m, l, left);
      assert approved == Min(n, caps[Place(r)]);
    }
    LeastOfNine(approved, caps, n);
  }

  lemma LeastOfNine(approved: int, caps: seq<int>, n: int)
    requires |caps| == 9 && caps[0] == n && approved <= n
    requires forall k :: 0 <= k < 9 ==> approved <= Min(n, caps[k])
    requires approved == n || exists k :: 0 <= k < 9 && approved == Min(n, caps[k])
    ensures IsLeast(approved, caps)
  {
    if approved != n {
      var k :| 0 <= k < 9 && approved == Min(n, caps[k]);
      assert caps[k] == approved;
    }
  }

  /** Whatever is asked for, a positive approval fits under the overdial ceiling and the ringing cap. */
  lemma ApprovalFitsTheCeiling(n: int, m: Metrics, l: Limits, left: int)
    requires 0 < Approved(n, m, l, left)
    ensures Approved(n, m, l, left) + m.Inflight() + m.ringing <= Ceiling(m, l)
    ensures Approved(n, m, l, left) + m.ringing <= l.ringingHardCap
    ensures m.active && 0 < m.available
  {
    hide LeastCap, Ceiling, Trunc, Best;
    EveryRuleListed();
    LeastCapIsMinimum(RULES, n, m, l, left);
    var least := LeastCap(RULES, n, m, l, left);
    assert least <= CapOf(OverdialCap, n, m, l, left) && least <= CapOf(RingingHardCap, n, m, l, left);
    assert least <= CapOf(CampaignActive, n, m, l, left) && least <= CapOf(NoAgents, n, m, l, left);
  }

  /** In the source's order, the reason is the first of the rules that cut as much as was cut. */
  lemma ReasonIsTheFirstRule(r: Rule, least: int, n: int, m: Metrics, l: Limits, left: int)
    requires FirstAttaining(RULES, r, least, n, m, l, left)
    ensures CapOf(r, n, m, l, left) == least
    ensures forall q: Rule :: Place(q) < Place(r) ==> CapOf(q, n, m, l, left) > least
  {
    hide CapOf;
    RulesInOrder();
    var k :| 0 <= k < |RULES| && RULES[k] == r && CapOf(r, n, m, l, left) == least
      && forall j :: 0 <= j < k ==> CapOf(RULES[j], n, m, l, left) > least;
    assert k == Place(r) - 1;
    forall q: Rule | Place(q) < Place(r) ensures CapOf(q, n, m, l, left) > least {
      assert RULES[Place(q) - 1] == q;
    }
  }

  lemma RulesInOrder()
    ensures |RULES| == 8 && forall q: Rule :: 1 <= Place(q) <= 8 && RULES[Place(q) - 1] == q
    ensures forall k :: 0 <= k < 8 ==> Place(RULES[k]) == k + 1
  {
    EveryRuleListed();
  }

  // ---- the cooldown over a run of ticks

  datatype Tick = Tick(n: nat, m: Metrics)

  /** cooldown_ticks_left when tick k starts. */
  function LeftAt(ticks: seq<Tick>, l: Limits, start: int, k: nat): int
    requires k <= |ticks|
  {
    if k == 0 then start else NextLeft(ticks[k - 1].m, l, LeftAt(ticks, l, start, k - 1))
  }

  lemma {:induction false} CooldownRunsDown(ticks: seq<Tick>, l: Limits, start: int, t: nat, k: nat)
    requires t < k <= |ticks| && Breach(ticks[t].m, l)
    ensures LeftAt(ticks, l, start, k) >= l.cooldownTicks - (k - t)
    decreases k
  {
    if t + 1 < k {
      CooldownRunsDown(ticks, l, start, t, k - 1);
    }
  }

  /** After a breach at tick t, ticks t .. t+N-1 dial at most progressively, whatever the later
      snapshots, requests and breaches: no more calls than idle agents not already counted on. */
  lemma BreachForcesProgressive(ticks: seq<Tick>, l: Limits, start: int, t: nat, k: nat)
    requires t <= k < |ticks| && ticks[t].m.abandonRate > l.maxAbandonRate
    requires 1 <= l.cooldownTicks && k < t + l.cooldownTicks
    ensures var m := ticks[k].m;
      Approved(ticks[k].n, m, l, LeftAt(ticks, l, start, k)) <= Max(0, m.available - (m.reserved + m.dialing))
  {
    var (n, m, left) := (ticks[k].n, ticks[k].m, LeftAt(ticks, l, start, k));
    ApprovalIsTheMinimum(n, m, l, left);
    hide Approved;
    if k == t {
      assert CapOf(AbandonBudget, n, m, l, left) <= m.Progressive();
    } else {
      CooldownRunsDown(ticks, l, start, t, k);
      assert CapOf(Cooldown, n, m, l, left) <= m.Progressive();
    }
  }

  /** And no longer: with no further breach the cooldown rule fires on ticks t+1 .. t+N-1 and is silent
      from tick t+N on. */
  lemma {:induction false} CooldownEndsOnTime(ticks: seq<Tick>, l: Limits, start: int, t: nat, k: nat)
    requires t < k < |ticks| && ticks[t].m.abandonRate > l.maxAbandonRate && 1 <= l.cooldownTicks
    requires forall j :: t < j < k ==> ticks[j].m.abandonRate <= l.maxAbandonRate
    ensures LeftAt(ticks, l, start, k) == Max(0, l.cooldownTicks - (k - t))
    ensures Outcome(Cooldown, ticks[k].n, ticks[k].m, l, LeftAt(ticks, l, start, k)).Some?
            <==> k < t + l.cooldownTicks
    decreases k
  {
    if t + 1 < k {
      CooldownEndsOnTime(ticks, l, start, t, k - 1);
    }
  }
}
