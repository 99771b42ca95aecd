/** The mock provider's delivery: duplicates, and pairwise reordering through one hold slot per call
    (src/smartdialer/providers/mock_a.py). Draws are arguments; an event is told apart by its id. */
module Provider {
  import EventNames

  datatype Delivery = Delivery(pcid: string, eventId: string, etype: string)

  datatype Buffer = Buffer(held: map<string, Delivery>, sent: seq<Delivery>)

  const EMPTY: Buffer := Buffer(map[], [])

  function Offered(b: Buffer, ev: Delivery, swap: bool): Buffer {
    if ev.pcid !in b.held then b.(held := b.held[ev.pcid := ev])
    else var first := b.held[ev.pcid];
      Buffer(b.held - {ev.pcid}, b.sent + if swap then [ev, first] else [first, ev])
  }

  function OfferedAll(b: Buffer, batch: seq<Delivery>, swap: bool): Buffer {
    if batch == [] then b
    else Offered(OfferedAll(b, batch[..|batch| - 1], swap), batch[|batch| - 1], swap)
  }

  function Flushed(b: Buffer, pcid: string): Buffer {
    if pcid in b.held then Buffer(b.held - {pcid}, b.sent + [b.held[pcid]]) else b
  }

  /** What the provider does, in the order it does it. A batch pairs at most once, so it takes at most
      one reordering draw. */
  datatype Op = Emit(pcid: string, eventId: string, raw: string, dup: bool, swap: bool) | Flush(pcid: string)

  function Event(op: Op): Delivery
    requires op.Emit?
  {
    Delivery(op.pcid, op.eventId, EventNames.MapProviderEvent(op.raw))
  }

  function Batch(op: Op): seq<Delivery> {
    if op.Flush? then [] else if op.dup then [Event(op), Event(op)] else [Event(op)]
  }

  function Exec(b: Buffer, op: Op): Buffer {
    if op.Flush? then Flushed(b, op.pcid) else OfferedAll(b, Batch(op), op.swap)
  }

  /** The emits of one call, in order: it rings, then it is answered and later completed, or it is not. */
  datatype Draws = Draws(eventId: string, dup: bool, swap: bool)

  function Script(pcid: string, answered: bool, x: Draws, y: Draws, z: Draws): seq<Op> {
    var ringing := Emit(pcid, x.eventId, "ringing", x.dup, x.swap);
    if !answered then [ringing, Emit(pcid, y.eventId, "no-answer", y.dup, y.swap), Flush(pcid)]
    else [ringing, Emit(pcid, y.eventId, "answered", y.dup, y.swap),
          Emit(pcid, z.eventId, "completed", z.dup, z.swap), Flush(pcid)]
  }

  function Resumed(b: Buffer, ops: seq<Op>): Buffer
    decreases |ops|
  {
    if ops == [] then b else Resumed(Exec(b, ops[0]), ops[1..])
  }

  lemma ResumedUnfolds(b: Buffer, ops: seq<Op>)
    ensures |ops| == 3 ==> Resumed(b, ops) == Exec(Exec(Exec(b, ops[0]), ops[1]), ops[2])
    ensures |ops| == 4 ==> Resumed(b, ops) == Exec(Exec(Exec(Exec(b, ops[0]), ops[1]), ops[2]), ops[3])
  {
    hide Exec;
    if |ops| == 3 || |ops| == 4 {
      var two := ops[1..];
      var three := two[1..];
      var four := three[1..];
      var second := Exec(Exec(b, ops[0]), ops[1]);
      assert Resumed(second, three) == Resumed(Exec(second, ops[2]), four);
      if |ops| == 4 {
        assert four[1..] == [];
      } else {
        assert four == [];
      }
    }
  }

  class MockProvider {
    var held: map<string, Delivery>
    var sent: seq<Delivery>

    function Now(): Buffer
      reads this
    {
      Buffer(held, sent)
    }

    constructor ()
      ensures Now() == EMPTY
    {
      held, sent := map[], [];
    }

    method SendAll(pair: seq<Delivery>)
      modifies this`sent
      ensures sent == old(sent) + pair
    {
      for i := 0 to |pair|
        invariant sent == old(sent) + pair[..i]
      {
        sent := sent + [pair[i]];
      }
    }

    method Emit(pcid: string, eventId: string, raw: string, dup: bool, swap: bool)
      modifies this
      ensures Now() == Exec(old(Now()), Op.Emit(pcid, eventId, raw, dup, swap))
    {
      var ev := Delivery(pcid, eventId, EventNames.MapProviderEvent(raw));
      var batch := [ev];
      if dup {
        batch := batch + [ev];
      }
      for i := 0 to |batch|
        invariant Now() == OfferedAll(old(Now()), batch[..i], swap)
      {
        assert batch[..i + 1][..i] == batch[..i];
        if pcid !in held {
          held := held[pcid := batch[i]];
          continue;
        }
        var pair := [held[pcid], batch[i]];
        if swap {
          pair := [pair[1], pair[0]];
        }
        held := held - {pcid};
        SendAll(pair);
      }
      assert batch[..|batch|] == Batch(Op.Emit(pcid, eventId, raw, dup, swap));
    }

    method Flush(pcid: string)
      modifies this
      ensures Now() == Exec(old(Now()), Op.Flush(pcid))
    {
      if pcid in held {
        var last := held[pcid];
        held := held - {pcid};
        SendAll([last]);
      }
    }

    /** What the other calls' tasks have emitted while this one was asleep. */
    method Sleep(env: (nat, Buffer) -> Buffer, wait: nat)
      modifies this
      ensures Now() == env(wait, old(Now()))
    {
      var b := env(wait, Now());
      held, sent := b.held, b.sent;
    }

    /** The lifecycle of one call. Whatever other calls do at its waits, this call's slot and deliveries are
        those of its own script. */
    method RunLifecycle(pcid: string, answered: bool, x: Draws, y: Draws, z: Draws, env: (nat, Buffer) -> Buffer)
      requires SlotsAreOwn(Now()) && forall i: nat, b: Buffer :: Elsewhere(b, env(i, b), pcid)
      modifies this
      ensures SlotsAreOwn(Now())
      ensures View(Now(), pcid) == Resumed(View(old(Now()), pcid), Script(pcid, answered, x, y, z))
      ensures (forall i: nat, b: Buffer :: env(i, b) == b) ==>
        Now() == Resumed(old(Now()), Script(pcid, answered, x, y, z))
    {
      hide Exec, View, SlotsAreOwn;
      ghost var (script, start) := (Script(pcid, answered, x, y, z), Now());
      ResumedUnfolds(start, script);
      ResumedUnfolds(View(start, pcid), script);
      ExecSeenBy(Now(), script[0], pcid);
      Emit(pcid, x.eventId, "ringing", x.dup, x.swap);
      assert Elsewhere(Now(), env(0, Now()), pcid);
      Sleep(env, 0);
      ExecSeenBy(Now(), script[1], pcid);
      if !answered {
        Emit(pcid, y.eventId, "no-answer", y.dup, y.swap);
        ExecSeenBy(Now(), script[2], pcid);
        Flush(pcid);
        return;
      }
      Emit(pcid, y.eventId, "answered", y.dup, y.swap);
      assert Elsewhere(Now(), env(1, Now()), pcid);
      Sleep(env, 1);
      ExecSeenBy(Now(), script[2], pcid);
      Emit(pcid, z.eventId, "completed", z.dup, z.swap);
      ExecSeenBy(Now(), script[3], pcid);
      Flush(pcid);
    }
  }

  /** The buffers differ in nothing this call sees. */
  ghost predicate Elsewhere(before: Buffer, after: Buffer, pcid: string) {
    SlotsAreOwn(before) ==> SlotsAreOwn(after) && View(after, pcid) == View(before, pcid)
  }

  /** An operation of another call goes unseen. */
  lemma OtherCallsAreElsewhere(b: Buffer, op: Op, pcid: string)
    requires op.pcid != pcid
    ensures Elsewhere(b, Exec(b, op), pcid)
  {
    if SlotsAreOwn(b) {
      ExecSeenBy(b, op, pcid);
    }
  }

  // ---- any number of calls at once

  function Run(ops: seq<Op>): Buffer {
    if ops == [] then EMPTY else Exec(Run(ops[..|ops| - 1]), ops[|ops| - 1])
  }

  lemma {:induction false} ResumedIsRun(before: seq<Op>, ops: seq<Op>)
    ensures Resumed(Run(before), ops) == Run(before + ops)
    decreases |ops|
  {
    hide Exec;
    if ops == [] {
      assert before + ops == before;
    } else {
      ResumedIsRun(before + [ops[0]], ops[1..]);
      assert (before + [ops[0]])[..|before|] == before;
      assert before + [ops[0]] + ops[1..] == before + ops;
    }
  }

  function Only(ops: seq<Op>, pcid: string): seq<Op> {
    if ops == [] then []
    else Only(ops[..|ops| - 1], pcid) + if ops[|ops| - 1].pcid == pcid then [ops[|ops| - 1]] else []
  }

  function SentTo(sent: seq<Delivery>, pcid: string): seq<Delivery> {
    if sent == [] then []
    else SentTo(sent[..|sent| - 1], pcid) + if sent[|sent| - 1].pcid == pcid then [sent[|sent| - 1]] else []
  }

  /** What one call sees of a buffer: its own slot and its own deliveries. */
  function View(b: Buffer, pcid: string): Buffer {
    Buffer(if pcid in b.held then map[pcid := b.held[pcid]] else map[], SentTo(b.sent, pcid))
  }

  ghost predicate SlotsAreOwn(b: Buffer) {
    forall p :: p in b.held ==> b.held[p].pcid == p
  }

  lemma SentToOne(s: seq<Delivery>, d: Delivery, pcid: string)
    ensures SentTo(s + [d], pcid) == SentTo(s, pcid) + if d.pcid == pcid then [d] else []
  {
    assert (s + [d])[..|s|] == s;
  }

  lemma SentToPair(s: seq<Delivery>, d: Delivery, f: Delivery, pcid: string)
    requires d.pcid == f.pcid
    ensures SentTo(s + [d, f], pcid) == SentTo(s, pcid) + if d.pcid == pcid then [d, f] else []
  {
    SentToOne(s, d, pcid);
    SentToOne(s + [d], f, pcid);
    assert s + [d, f] == s + [d] + [f];
    assert SentTo(s, pcid) + [d] + [f] == SentTo(s, pcid) + [d, f];
  }

  lemma OfferedSeenBy(b: Buffer, ev: Delivery, swap: bool, pcid: string)
    requires SlotsAreOwn(b)
    ensures SlotsAreOwn(Offered(b, ev, swap))
    ensures View(Offered(b, ev, swap), pcid)
            == if ev.pcid == pcid then Offered(View(b, pcid), ev, swap) else View(b, pcid)
  {
    hide SentTo;
    if ev.pcid in b.held {
      var first := b.held[ev.pcid];
      SentToPair(b.sent, ev, first, pcid);
      SentToPair(b.sent, first, ev, pcid);
    }
  }

  lemma ExecSeenBy(b: Buffer, op: Op, pcid: string)
    requires SlotsAreOwn(b)
    ensures SlotsAreOwn(Exec(b, op))
    ensures View(Exec(b, op), pcid) == if op.pcid == pcid then Exec(View(b, pcid), op) else View(b, pcid)
  {
    match op
    case Flush(p) =>
      if p in b.held {
        SentToOne(b.sent, b.held[p], pcid);
      }
    case Emit(_, _, _, dup, swap) =>
      var ev := Event(op);
      OfferedSeenBy(b, ev, swap, pcid);
      OfferedSeenBy(Offered(b, ev, swap), ev, swap, pcid);
      OfferedTwice(b, ev, swap);
      OfferedTwice(View(b, pcid), ev, swap);
      hide Offered, OfferedAll, View;
  }

  lemma OfferedTwice(b: Buffer, ev: Delivery, swap: bool)
    ensures OfferedAll(b, [ev], swap) == Offered(b, ev, swap)
    ensures OfferedAll(b, [ev, ev], swap) == Offered(Offered(b, ev, swap), ev, swap)
  {
    assert [ev][..0] == [] && [ev, ev][..1] == [ev];
    assert OfferedAll(b, [], swap) == b;
  }

  /** One call's deliveries never depend on any other call: whatever else the provider is doing, each
      call sees exactly what it would have seen alone. */
  lemma {:induction false} CallsAreIsolated(ops: seq<Op>, pcid: string)
    ensures SlotsAreOwn(Run(ops))
    ensures View(Run(ops), pcid) == Run(Only(ops, pcid))
  {
    if ops != [] {
      var n := |ops| - 1;
      CallsAreIsolated(ops[..n], pcid);
      ExecSeenBy(Run(ops[..n]), ops[n], pcid);
      var mine := Only(ops[..n], pcid);
      assert (mine + [ops[n]])[..|mine|] == mine && mine + [] == mine;
      hide Exec, View;
    }
  }

  // ---- one call

  function Emitted(ops: seq<Op>): seq<Delivery> {
    if ops == [] then [] else Emitted(ops[..|ops| - 1]) + Batch(ops[|ops| - 1])
  }

  /** The reordering draw that each emission came with. */
  function Swaps(ops: seq<Op>): (d: seq<bool>)
    ensures |d| == |Emitted(ops)|
  {
    if ops == [] then []
    else
      var op := ops[|ops| - 1];
      Swaps(ops[..|ops| - 1]) + if op.Flush? then [] else if op.dup then [op.swap, op.swap] else [op.swap]
  }

  /** s is e with the two elements of a pair 2k, 2k+1 exchanged exactly if the second one's draw said so. */
  ghost predicate Pairwise(s: seq<Delivery>, e: seq<Delivery>, d: seq<bool>) {
    |s| % 2 == 0 && |s| <= |e| == |d| && forall k :: 0 <= k < |s| / 2 ==> SamePair(s, e, d, k)
  }

  predicate SamePair(s: seq<Delivery>, e: seq<Delivery>, d: seq<bool>, k: nat)
    requires 2 * k + 1 < |s| && 2 * k + 1 < |e| && 2 * k + 1 < |d|
  {
    if d[2 * k + 1] then s[2 * k] == e[2 * k + 1] && s[2 * k + 1] == e[2 * k]
    else s[2 * k] == e[2 * k] && s[2 * k + 1] == e[2 * k + 1]
  }

  /** The slot holds the one emission that has not been sent. */
  ghost predicate PairedUp(b: Buffer, pcid: string, e: seq<Delivery>, d: seq<bool>) {
    && b.held.Keys <= {pcid} && Pairwise(b.sent, e, d)
    && if pcid in b.held then |e| == |b.sent| + 1 && b.held[pcid] == e[|b.sent|] else |e| == |b.sent|
  }

  lemma OfferedPairs(b: Buffer, ev: Delivery, swap: bool, e: seq<Delivery>, d: seq<bool>)
    requires PairedUp(b, ev.pcid, e, d)
    ensures PairedUp(Offered(b, ev, swap), ev.pcid, e + [ev], d + [swap])
  {
    var after, e', d' := Offered(b, ev, swap), e + [ev], d + [swap];
    forall k | 0 <= k < |after.sent| / 2 ensures SamePair(after.sent, e', d', k) {
      if k < |b.sent| / 2 {
        assert SamePair(b.sent, e, d, k);
      }
    }
  }

  /** Deliveries are delayed by at most one place: they leave in pairs, in the order they were emitted
      except that the two of a pair are exchanged if the second one's draw says so, and at most one waits. */
  lemma {:induction false} DeliveredInPairs(ops: seq<Op>, pcid: string)
    requires forall i :: 0 <= i < |ops| ==> ops[i].Emit? && ops[i].pcid == pcid
    ensures PairedUp(Run(ops), pcid, Emitted(ops), Swaps(ops))
  {
    if ops != [] {
      var n := |ops| - 1;
      var op, b, e, d := ops[n], Run(ops[..n]), Emitted(ops[..n]), Swaps(ops[..n]);
      DeliveredInPairs(ops[..n], pcid);
      var ev := Event(op);
      hide PairedUp, Offered, Run, Emitted, Swaps;
      OfferedTwice(b, ev, op.swap);
      OfferedPairs(b, ev, op.swap, e, d);
      OfferedPairs(Offered(b, ev, op.swap), ev, op.swap, e + [ev], d + [op.swap]);
      RunUnfolds(ops);
      assert e + [ev, ev] == e + [ev] + [ev] && d + [op.swap, op.swap] == d + [op.swap] + [op.swap];
    }
  }

  lemma RunUnfolds(ops: seq<Op>)
    requires ops != [] && ops[|ops| - 1].Emit?
    ensures Run(ops) == OfferedAll(Run(ops[..|ops| - 1]), Batch(ops[|ops| - 1]), ops[|ops| - 1].swap)
    ensures Emitted(ops) == Emitted(ops[..|ops| - 1]) + Batch(ops[|ops| - 1])
    ensures var op := ops[|ops| - 1];
      Swaps(ops) == Swaps(ops[..|ops| - 1]) + if op.dup then [op.swap, op.swap] else [op.swap]
  {
  }

  lemma LastPairKeepsContents(s: seq<Delivery>, e: seq<Delivery>, n: nat)
    requires |s| == |e| == n + 2 && multiset(s[..n]) == multiset(e[..n])
    requires (s[n] == e[n] && s[n + 1] == e[n + 1]) || (s[n] == e[n + 1] && s[n + 1] == e[n])
    ensures multiset(s) == multiset(e)
  {
    PairContents(s, n);
    PairContents(e, n);
  }

  lemma PairContents(s: seq<Delivery>, n: nat)
    requires |s| == n + 2
    ensures multiset(s) == multiset(s[..n]) + multiset{s[n], s[n + 1]}
  {
    var last := s[n..];
    assert last == [s[n], s[n + 1]];
    assert s == s[..n] + last;
  }

  lemma {:induction false} PairsKeepContents(s: seq<Delivery>, e: seq<Delivery>, d: seq<bool>)
    requires Pairwise(s, e, d) && |e| == |s|
    ensures multiset(s) == multiset(e)
  {
    if s != [] {
      var n := |s| - 2;
      assert SamePair(s, e, d, n / 2);
      forall k | 0 <= k < n / 2 ensures SamePair(s[..n], e[..n], d[..n], k) {
        assert SamePair(s, e, d, k);
      }
      PairsKeepContents(s[..n], e[..n], d[..n]);
      LastPairKeepsContents(s, e, n);
    }
  }

  lemma PairsThenLast(b: Buffer, pcid: string, e: seq<Delivery>, d: seq<bool>)
    requires PairedUp(b, pcid, e, d)
    ensures Flushed(b, pcid).held == map[] && multiset(Flushed(b, pcid).sent) == multiset(e)
  {
    var n := |b.sent|;
    forall k | 0 <= k < n / 2 ensures SamePair(b.sent, e[..n], d[..n], k) {
      assert SamePair(b.sent, e, d, k);
    }
    PairsKeepContents(b.sent, e[..n], d[..n]);
    if pcid in b.held {
      assert e == e[..n] + [e[n]];
    } else {
      assert e == e[..n];
    }
  }

  /** Flushing after the last emit sends everything: nothing is lost, nothing is invented, and each
      event is sent once, or twice if it was duplicated. */
  lemma FlushSendsEverything(ops: seq<Op>, pcid: string)
    requires forall i :: 0 <= i < |ops| ==> ops[i].Emit? && ops[i].pcid == pcid
    ensures var b := Flushed(Run(ops), pcid);
      b.held == map[] && multiset(b.sent) == multiset(Emitted(ops))
  {
    DeliveredInPairs(ops, pcid);
    hide Run, Emitted, Swaps, PairedUp;
    PairsThenLast(Run(ops), pcid, Emitted(ops), Swaps(ops));
  }

  function Elements(s: seq<Delivery>): set<Delivery> { set d | d in s }

  lemma SameContentsSameElements(s: seq<Delivery>, e: seq<Delivery>)
    requires multiset(s) == multiset(e)
    ensures Elements(s) == Elements(e)
  {
    assert forall d :: d in s <==> d in multiset(s);
    assert forall d :: d in e <==> d in multiset(e);
  }

  /** The events of one call, once each. */
  function Lifecycle(pcid: string, answered: bool, x: Draws, y: Draws, z: Draws): set<Delivery> {
    if answered then {Delivery(pcid, x.eventId, "RINGING"), Delivery(pcid, y.eventId, "ANSWERED"),
                      Delivery(pcid, z.eventId, "COMPLETED")}
    else {Delivery(pcid, x.eventId, "RINGING"), Delivery(pcid, y.eventId, "FAILED")}
  }

  /** For all duplication and reordering draws and among any other calls, a call whose lifecycle has run
      has had each of its events delivered, at least once, and nothing else. */
  lemma LifecycleIsDelivered(ops: seq<Op>, pcid: string, answered: bool, x: Draws, y: Draws, z: Draws)
    requires Only(ops, pcid) == Script(pcid, answered, x, y, z)
    ensures pcid !in Run(ops).held
    ensures Elements(SentTo(Run(ops).sent, pcid)) == Lifecycle(pcid, answered, x, y, z)
  {
    CallsAreIsolated(ops, pcid);
    hide Only;
    var script := Script(pcid, answered, x, y, z);
    var emits := script[..|script| - 1];
    FlushSendsEverything(emits, pcid);
    assert Run(script) == Flushed(Run(emits), pcid);
    ScriptEmits(pcid, answered, x, y, z);
    hide Run, Emitted, Lifecycle, Flushed, SentTo;
    assert SentTo(Run(ops).sent, pcid) == Flushed(Run(emits), pcid).sent;
    SameContentsSameElements(SentTo(Run(ops).sent, pcid), Emitted(emits));
  }

  lemma PlainEmit(b: Buffer, op: Op)
    requires op.Emit? && !op.dup && !op.swap && b.held.Keys <= {op.pcid}
    ensures Exec(b, op) == if op.pcid in b.held then Buffer(map[], b.sent + [b.held[op.pcid], Event(op)])
                           else Buffer(map[op.pcid := Event(op)], b.sent)
  {
    OfferedTwice(b, Event(op), false);
    hide OfferedAll, Event;
  }

  /** Without duplicates and reordering a call's events arrive once each, in the order of its life. */
  lemma PlainLifecycleArrivesInOrder(pcid: string, answered: bool, x: Draws, y: Draws, z: Draws)
    requires !x.dup && !y.dup && !z.dup && !x.swap && !y.swap && !z.swap
    ensures Resumed(EMPTY, Script(pcid, answered, x, y, z)).sent
            == [Delivery(pcid, x.eventId, "RINGING")]
               + if answered then [Delivery(pcid, y.eventId, "ANSWERED"), Delivery(pcid, z.eventId, "COMPLETED")]
                 else [Delivery(pcid, y.eventId, "FAILED")]
  {
    var script := Script(pcid, answered, x, y, z);
    ResumedUnfolds(EMPTY, script);
    var ring, next := Event(script[0]), Event(script[1]);
    assert ring == Delivery(pcid, x.eventId, "RINGING");
    assert next == Delivery(pcid, y.eventId, if answered then "ANSWERED" else "FAILED");
    PlainEmit(EMPTY, script[0]);
    PlainEmit(Buffer(map[pcid := ring], []), script[1]);
    assert Exec(Exec(EMPTY, script[0]), script[1]) == Buffer(map[], [ring, next]);
    if answered {
      PlainEmit(Buffer(map[], [ring, next]), script[2]);
      assert Event(script[2]) == Delivery(pcid, z.eventId, "COMPLETED");
    }
    hide Resumed, OfferedAll;
  }

  lemma ScriptEmits(pcid: string, answered: bool, x: Draws, y: Draws, z: Draws)
    ensures var script := Script(pcid, answered, x, y, z);
      Elements(Emitted(script[..|script| - 1])) == Lifecycle(pcid, answered, x, y, z)
  {
    var script := Script(pcid, answered, x, y, z);
    var emits := script[..|script| - 1];
    forall d ensures d in Emitted(emits) <==> Emits(emits, d) {
      EmittedIs(emits, d);
    }
    hide Emitted;
    assert Event(emits[0]) == Delivery(pcid, x.eventId, "RINGING");
    assert Event(emits[1]) == Delivery(pcid, y.eventId, if answered then "ANSWERED" else "FAILED");
    assert answered ==> Event(emits[2]) == Delivery(pcid, z.eventId, "COMPLETED");
  }

  ghost predicate Emits(ops: seq<Op>, d: Delivery)
    requires forall i :: 0 <= i < |ops| ==> ops[i].Emit?
  {
    exists i :: 0 <= i < |ops| && d == Event(ops[i])
  }

  lemma {:induction false} EmittedIs(ops: seq<Op>, d: Delivery)
    requires forall i :: 0 <= i < |ops| ==> ops[i].Emit?
    ensures d in Emitted(ops) <==> Emits(ops, d)
  {
    hide Event;
    if ops != [] {
      var front, last := ops[..|ops| - 1], ops[|ops| - 1];
      EmittedIs(front, d);
      assert d in Batch(last) <==> d == Event(last);
      EmitsLast(ops, d);
    }
  }

  lemma EmitsLast(ops: seq<Op>, d: Delivery)
    requires ops != [] && forall i :: 0 <= i < |ops| ==> ops[i].Emit?
    ensures Emits(ops, d) <==> Emits(ops[..|ops| - 1], d) || d == Event(ops[|ops| - 1])
  {
    hide Event;
    var front := ops[..|ops| - 1];
    assert forall i :: 0 <= i < |front| ==> front[i] == ops[i];
    assert d == Event(ops[|ops| - 1]) ==> Emits(ops, d);
    if i :| 0 <= i < |front| && d == Event(front[i]) {
      assert d == Event(ops[i]);
    }
  }
}
