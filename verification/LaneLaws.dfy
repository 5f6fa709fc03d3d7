/**
 What a caller of one lane can rely on, in terms of the operations and the
 settlements only: when an `acquire` is granted, aborted or sent back, and who is
 served next. Together with `FifoSemaphore.RunKeepsInvariant` this leaves the
 reference no choice.
 */
module LaneLaws {
  import opened FifoSemaphore

  function OpAt(ops: seq<Op>, i: nat): Op
    requires i < |ops|
  {
    ops[i]
  }

  /** The caller's signal has become aborted. */
  ghost predicate Signalled(ops: seq<Op>, t: Ticket) {
    exists i: nat :: i < |ops| && OpAt(ops, i) == OpSignal(t)
  }

  /** The last pause came after the last resume. */
  predicate Closed(ops: seq<Op>) {
    ops != [] && (ops[|ops| - 1].OpPause? || (!ops[|ops| - 1].OpResume? && Closed(ops[..|ops| - 1])))
  }

  /** What the operations say about the fields of the lane. */
  lemma {:induction false} FieldsAre(capacity: nat, ops: seq<Op>)
    ensures Run(Start(capacity), ops).sem.open <==> !Closed(ops)
    ensures forall t :: t in Run(Start(capacity), ops).aborted <==> Signalled(ops, t)
  {
    if ops != [] {
      var past, op := ops[..|ops| - 1], ops[|ops| - 1];
      var r := Run(Start(capacity), past);
      FieldsAre(capacity, past);
      StepOpen(r, op);
      if Enabled(r, op) { StepAborted(r, op); }
      assert ops == past + [op];
      forall t ensures Signalled(ops, t) <==> Signalled(past, t) || op == OpSignal(t) { SignalledNext(past, op, t); }
    }
  }

  lemma {:induction false} SignalledNext(past: seq<Op>, op: Op, t: Ticket)
    ensures Signalled(past + [op], t) <==> Signalled(past, t) || op == OpSignal(t)
  {
    var ops := past + [op];
    assert OpAt(ops, |past|) == op;
    if Signalled(past, t) {
      var i: nat :| i < |past| && OpAt(past, i) == OpSignal(t);
      assert OpAt(ops, i) == OpSignal(t);
    }
    if Signalled(ops, t) && op != OpSignal(t) {
      var i: nat :| i < |ops| && OpAt(ops, i) == OpSignal(t);
      assert OpAt(past, i) == OpSignal(t);
    }
  }

  lemma {:induction false} PumpOpen(s: Semaphore, aborted: set<Ticket>)
    ensures Pump(s, aborted).0.open == s.open
    decreases |s.queue|
  {
    if s.Runnable() { PumpOpen(Pop(s, aborted).0, aborted); }
  }

  lemma {:induction false} StepOpen(r: LaneRun, op: Op)
    ensures Step(r, op).sem.open <==> !op.OpPause? && (op.OpResume? || r.sem.open)
  {
    if Enabled(r, op) {
      StepIs(r, op);
      PumpOpen(Freed(r.sem), r.aborted);
      PumpOpen(r.sem.(open := true), r.aborted);
      if op.OpListener? { PumpOpen(r.sem.(queue := Without(r.sem.queue, op.t)), r.aborted); }
    }
  }

  // ---------------------------------------------------------------------
  // Why a ticket was settled
  // ---------------------------------------------------------------------

  /** An `acquire` was called with this ticket. */
  ghost predicate Arrived(ops: seq<Op>, t: Ticket) {
    exists i: nat :: i < |ops| && OpAt(ops, i) == OpAcquire(t)
  }

  /** The operation `op` after `before` is a reason for this settlement. */
  ghost predicate Justified(before: seq<Op>, op: Op, e: Effect) {
    && Arrived(before + [op], e.ticket)
    && match e
       case Granted(t) => !Signalled(before, t) && !Closed(before)
       case Aborted(t) => Signalled(before, t)
       case Paused(t) => if op == OpAcquire(t) then Closed(before) else op == OpPause && !Closed(before)
  }

  /** Every settlement so far has its reason at some operation. */
  ghost predicate AllJustified(ops: seq<Op>, trace: seq<Effect>) {
    forall k: nat :: k < |trace| ==> HasReason(ops, EffectAt(trace, k))
  }

  function EffectAt(trace: seq<Effect>, k: nat): Effect
    requires k < |trace|
  {
    trace[k]
  }

  ghost predicate HasReason(ops: seq<Op>, e: Effect) {
    exists i: nat :: i < |ops| && Justified(ops[..i], OpAt(ops, i), e)
  }

  /** What a pump settles: nobody is paused, and the signal decides between the others. */
  lemma {:induction false} PumpReasons(s: Semaphore, aborted: set<Ticket>, k: nat)
    requires k < |Pump(s, aborted).1|
    ensures var e := Pump(s, aborted).1[k];
      e.ticket in s.queue && s.open && if e.ticket in aborted then e.Aborted? else e.Granted?
    decreases |s.queue|
  {
    var p := Pop(s, aborted);
    if k > 0 { PumpReasons(p.0, aborted, k - 1); }
  }

  lemma {:induction false} PausedReasons(q: seq<Ticket>, k: nat)
    requires k < |PausedAll(q)|
    ensures PausedAll(q)[k].Paused? && PausedAll(q)[k].ticket in q
  {
    if k > 0 { PausedReasons(q[1..], k - 1); }
  }

  /** Who waits has arrived. */
  ghost predicate WaitersArrived(ops: seq<Op>, q: seq<Ticket>) {
    forall t :: t in q ==> Arrived(ops, t)
  }

  lemma {:induction false} ArrivedNext(past: seq<Op>, op: Op, t: Ticket)
    ensures Arrived(past, t) || op == OpAcquire(t) ==> Arrived(past + [op], t)
  {
    var ops := past + [op];
    assert OpAt(ops, |past|) == op;
    if Arrived(past, t) {
      var i: nat :| i < |past| && OpAt(past, i) == OpAcquire(t);
      assert OpAt(ops, i) == OpAcquire(t);
    }
  }

  /** The settlements of one step, and the waiters it leaves. */
  lemma {:induction false} EffectReasons(r: LaneRun, past: seq<Op>, op: Op, k: nat)
    requires Enabled(r, op) && WaitersArrived(past, r.sem.queue) && (r.sem.open <==> !Closed(past))
    requires r.sem.Valid() && forall t :: t in r.aborted <==> Signalled(past, t)
    requires k < |OpEffect(r.sem, op, r.aborted).1|
    ensures Justified(past, op, OpEffect(r.sem, op, r.aborted).1[k])
  {
    var e := OpEffect(r.sem, op, r.aborted).1[k];
    ArrivedNext(past, op, e.ticket);
    match op
    case OpAcquire(t) =>
    case OpRelease(t) => PumpReasons(Freed(r.sem), r.aborted, k);
    case OpSignal(t) =>
    case OpListener(t) => AbortIsOne(r.sem, t, r.aborted);
    case OpPause => PausedReasons(r.sem.queue, k);
    case OpResume => AtMostOneWakeup(r.sem, 0, r.aborted);
  }

  lemma {:induction false} AbortIsOne(s: Semaphore, t: Ticket, aborted: set<Ticket>)
    requires s.Valid() && t in s.queue
    ensures Abort(s, t, aborted) == (s.(queue := Without(s.queue, t)), [Aborted(t)])
  {
    AtMostOneWakeup(s, t, aborted);
    assert Pump(s.(queue := Without(s.queue, t)), aborted) == (s.(queue := Without(s.queue, t)), []);
    assert [Aborted(t)] + [] == [Aborted(t)];
  }

  lemma {:induction false} PumpShortens(s: Semaphore, aborted: set<Ticket>, t: Ticket)
    ensures t in Pump(s, aborted).0.queue ==> t in s.queue
    decreases |s.queue|
  {
    if s.Runnable() { PumpShortens(Pop(s, aborted).0, aborted, t); }
  }

  lemma {:induction false} WithoutMembers(q: seq<Ticket>, u: Ticket, t: Ticket)
    ensures t in Without(q, u) ==> t in q
  {
  }

  lemma {:induction false} WaitersStay(r: LaneRun, past: seq<Op>, op: Op)
    requires Enabled(r, op) && WaitersArrived(past, r.sem.queue)
    ensures WaitersArrived(past + [op], OpEffect(r.sem, op, r.aborted).0.queue)
  {
    forall t | t in OpEffect(r.sem, op, r.aborted).0.queue ensures Arrived(past + [op], t) {
      ArrivedNext(past, op, t);
      match op
      case OpRelease(u) => PumpShortens(Freed(r.sem), r.aborted, t);
      case OpListener(u) =>
        PumpShortens(r.sem.(queue := Without(r.sem.queue, u)), r.aborted, t);
        WithoutMembers(r.sem.queue, u, t);
      case OpResume => PumpShortens(r.sem.(open := true), r.aborted, t);
      case _ =>
    }
  }

  lemma {:induction false} ReasonStays(past: seq<Op>, op: Op, e: Effect)
    requires HasReason(past, e)
    ensures HasReason(past + [op], e)
  {
    var i: nat :| i < |past| && Justified(past[..i], OpAt(past, i), e);
    assert (past + [op])[..i] == past[..i] && OpAt(past + [op], i) == OpAt(past, i);
  }

  lemma {:induction false} NewReason(past: seq<Op>, op: Op, e: Effect)
    requires Justified(past, op, e)
    ensures HasReason(past + [op], e)
  {
    assert (past + [op])[..|past|] == past && OpAt(past + [op], |past|) == op;
  }

  /** Over every run of a lane, every settlement has its reason: a ticket is granted only while the lane is
      open and the caller's signal is not aborted; it is aborted only after its signal; and it is sent back
      only if the lane was closed when it arrived, or is being closed while it waits. */
  lemma {:induction false} EverySettlement(capacity: nat, ops: seq<Op>)
    ensures AllJustified(ops, Run(Start(capacity), ops).trace)
    ensures WaitersArrived(ops, Run(Start(capacity), ops).sem.queue)
  {
    if ops != [] {
      var past, op := ops[..|ops| - 1], ops[|ops| - 1];
      var r := Run(Start(capacity), past);
      assert ops == past + [op];
      EverySettlement(capacity, past);
      StepReasons(capacity, past, op);
    }
  }

  lemma {:induction false} StepReasons(capacity: nat, past: seq<Op>, op: Op)
    requires AllJustified(past, Run(Start(capacity), past).trace)
    requires WaitersArrived(past, Run(Start(capacity), past).sem.queue)
    ensures AllJustified(past + [op], Step(Run(Start(capacity), past), op).trace)
    ensures WaitersArrived(past + [op], Step(Run(Start(capacity), past), op).sem.queue)
  {
    var r := Run(Start(capacity), past);
    var r' := Step(r, op);
    RunKeepsInvariant(capacity, past);
    FieldsAre(capacity, past);
    if Enabled(r, op) {
      StepIs(r, op);
      WaitersStay(r, past, op);
      forall k: nat | k < |r'.trace| ensures HasReason(past + [op], EffectAt(r'.trace, k)) {
        if k < |r.trace| {
          assert EffectAt(r'.trace, k) == EffectAt(r.trace, k);
          ReasonStays(past, op, EffectAt(r.trace, k));
        } else {
          EffectReasons(r, past, op, k - |r.trace|);
          NewReason(past, op, EffectAt(r'.trace, k));
        }
      }
    } else {
      forall k: nat | k < |r'.trace| ensures HasReason(past + [op], EffectAt(r'.trace, k)) {
        ReasonStays(past, op, EffectAt(r.trace, k));
      }
      forall t | t in r'.sem.queue ensures Arrived(past + [op], t) { ArrivedNext(past, op, t); }
    }
  }

  // ---------------------------------------------------------------------
  // Nobody is forgotten
  // ---------------------------------------------------------------------

  predicate NeverPaused(ops: seq<Op>) {
    forall i: nat :: i < |ops| ==> !OpAt(ops, i).OpPause?
  }

  lemma {:induction false} SettledSomewhere(e: seq<Effect>, t: Ticket) returns (k: nat)
    requires Settlements(e, t) > 0
    ensures k < |e| && EffectAt(e, k).ticket == t
  {
    if e[0].ticket == t {
      k := 0;
    } else {
      var j := SettledSomewhere(e[1..], t);
      k := j + 1;
    }
  }

  lemma {:induction false} CountMember(q: seq<Ticket>, t: Ticket)
    ensures t in q <==> Count(q, t) > 0
  {
    if q != [] { CountMember(q[1..], t); }
  }

  lemma {:induction false} GrantedMember(e: seq<Effect>, k: nat)
    requires k < |e| && e[k].Granted?
    ensures e[k].ticket in Grants(e)
  {
    if k < |e| - 1 { GrantedMember(e[..|e| - 1], k); }
  }

  /** In a run that is never paused, a caller whose signal was not aborted is granted or waits in the line. */
  lemma {:induction false} GrantedOrWaiting(capacity: nat, ops: seq<Op>, t: Ticket)
    requires NeverPaused(ops) && !Signalled(ops, t) && t in Run(Start(capacity), ops).arrivals
    ensures t in Grants(Run(Start(capacity), ops).trace) || t in Run(Start(capacity), ops).sem.queue
  {
    var r := Run(Start(capacity), ops);
    RunKeepsInvariant(capacity, ops);
    CountMember(r.arrivals, t);
    CountMember(r.sem.queue, t);
    if t !in r.sem.queue {
      var k := SettledSomewhere(r.trace, t);
      EverySettlement(capacity, ops);
      var e := EffectAt(r.trace, k);
      assert HasReason(ops, e);
      var i: nat :| i < |ops| && Justified(ops[..i], OpAt(ops, i), e);
      NotSignalledBefore(ops, i, t);
      NotClosedBefore(ops, i);
      assert e.Granted?;
      GrantedMember(r.trace, k);
    }
  }

  lemma {:induction false} NotSignalledBefore(ops: seq<Op>, i: nat, t: Ticket)
    requires i <= |ops| && !Signalled(ops, t)
    ensures !Signalled(ops[..i], t)
  {
    forall k: nat | k < i ensures OpAt(ops[..i], k) != OpSignal(t) { assert OpAt(ops, k) != OpSignal(t); }
  }

  lemma {:induction false} NotClosedBefore(ops: seq<Op>, i: nat)
    requires i <= |ops| && NeverPaused(ops)
    ensures !Closed(ops[..i])
  {
    if i > 0 {
      NotClosedBefore(ops, i - 1);
      assert ops[..i][..i - 1] == ops[..i - 1] && OpAt(ops, i - 1) == ops[..i][i - 1];
    }
  }

  // ---------------------------------------------------------------------
  // What each operation does, exactly
  // ---------------------------------------------------------------------

  /** The outcome of an arrival: rejected if its signal is aborted, sent back if the lane is closed, granted
      if fewer than `capacity` callers hold a unit, and the last of the line otherwise. */
  lemma {:induction false} ArrivalOutcome(capacity: nat, ops: seq<Op>, t: Ticket)
    requires Enabled(Run(Start(capacity), ops), OpAcquire(t))
    ensures var r, r' := Run(Start(capacity), ops), Run(Start(capacity), ops + [OpAcquire(t)]);
      if Signalled(ops, t) then r'.trace == r.trace + [Aborted(t)] && r'.sem.queue == r.sem.queue
      else if Closed(ops) then r'.trace == r.trace + [Paused(t)] && r'.sem.queue == r.sem.queue
      else if |r.held| < capacity then r'.trace == r.trace + [Granted(t)] && r'.sem.queue == r.sem.queue
      else r'.trace == r.trace && r'.sem.queue == r.sem.queue + [t]
  {
    var r := Run(Start(capacity), ops);
    assert (ops + [OpAcquire(t)])[..|ops|] == ops;
    RunKeepsInvariant(capacity, ops);
    FieldsAre(capacity, ops);
    StepIs(r, OpAcquire(t));
  }

  function Rejections(q: seq<Ticket>): seq<Effect> {
    if q == [] then [] else [Aborted(q[0])] + Rejections(q[1..])
  }

  /** The first `n` of the line have aborted signals, and the next one, if any, has not. */
  ghost predicate FirstServed(ops: seq<Op>, q: seq<Ticket>, n: nat) {
    && n <= |q|
    && (forall i: nat :: i < n ==> Signalled(ops, At(q, i)))
    && (n < |q| ==> !Signalled(ops, At(q, n)))
  }

  lemma {:induction false} PumpServes(s: Semaphore, aborted: set<Ticket>, ops: seq<Op>) returns (n: nat)
    requires s.open && s.active + 1 == s.capacity && forall t :: t in aborted <==> Signalled(ops, t)
    ensures FirstServed(ops, s.queue, n)
    ensures Pump(s, aborted).1 == Rejections(s.queue[..n]) + (if n < |s.queue| then [Granted(s.queue[n])] else [])
    ensures Pump(s, aborted).0.queue == if n < |s.queue| then s.queue[n + 1..] else []
    decreases |s.queue|
  {
    var q := s.queue;
    if q == [] || q[0] !in aborted {
      n := 0;
      if q != [] {
        assert At(q, 0) == q[0];
        var p := Pop(s, aborted);
        assert Pump(p.0, aborted) == (p.0, []);
        assert [p.1] + [] == [] + [Granted(q[0])];
      }
    } else {
      var m := PumpServes(s.(queue := q[1..]), aborted, ops);
      n := m + 1;
      assert q[..n][1..] == q[1..][..m] && q[1..][m..] == q[n..];
      forall i: nat | i < n ensures Signalled(ops, At(q, i)) {
        if i == 0 { assert At(q, 0) == q[0]; } else { assert At(q, i) == At(q[1..], i - 1); }
      }
      if n < |q| { assert At(q, n) == At(q[1..], m); }
      RejectionsRegroup(q[0], Rejections(q[1..][..m]), if n < |q| then [Granted(q[n])] else []);
    }
  }

  lemma {:induction false} RejectionsRegroup(t: Ticket, a: seq<Effect>, b: seq<Effect>)
    ensures [Aborted(t)] + (a + b) == ([Aborted(t)] + a) + b
  {
  }

  /** The outcome of a release while the lane is full: the first waiter whose signal is not aborted is
      granted, the ones before it are rejected, the ones behind it stay. */
  lemma {:induction false} ReleaseOutcome(capacity: nat, ops: seq<Op>, t: Ticket) returns (n: nat)
    requires Enabled(Run(Start(capacity), ops), OpRelease(t))
    ensures var r, r' := Run(Start(capacity), ops), Run(Start(capacity), ops + [OpRelease(t)]);
      && FirstServed(ops, r.sem.queue, n)
      && r'.trace == r.trace
           + (Rejections(r.sem.queue[..n]) + (if n < |r.sem.queue| then [Granted(r.sem.queue[n])] else []))
      && r'.sem.queue == if n < |r.sem.queue| then r.sem.queue[n + 1..] else []
  {
    var r := Run(Start(capacity), ops);
    assert (ops + [OpRelease(t)])[..|ops|] == ops;
    RunKeepsInvariant(capacity, ops);
    FieldsAre(capacity, ops);
    StepIs(r, OpRelease(t));
    assert |r.held| >= 1;
    if r.sem.queue == [] {
      n := 0;
      assert Pump(Freed(r.sem), r.aborted) == (Freed(r.sem), []);
      assert r.trace + [] == r.trace + ([] + []);
    } else {
      n := PumpServes(Freed(r.sem), r.aborted, ops);
    }
  }

  /** The outcome of the other operations: a listener takes its waiter out of the line, a pause sends the
      whole line back, a signal and a resume settle nobody. */
  lemma {:induction false} OtherOutcomes(capacity: nat, ops: seq<Op>, op: Op)
    requires Enabled(Run(Start(capacity), ops), op) && !op.OpAcquire? && !op.OpRelease?
    ensures var r, r' := Run(Start(capacity), ops), Run(Start(capacity), ops + [op]);
      match op
      case OpListener(t) => r'.trace == r.trace + [Aborted(t)] && r'.sem.queue == Without(r.sem.queue, t)
      case OpPause => r'.trace == r.trace + (if Closed(ops) then [] else PausedAll(r.sem.queue)) && r'.sem.queue == []
      case _ => r'.trace == r.trace && r'.sem.queue == r.sem.queue
  {
    var r := Run(Start(capacity), ops);
    assert (ops + [op])[..|ops|] == ops;
    RunKeepsInvariant(capacity, ops);
    FieldsAre(capacity, ops);
    StepIs(r, op);
    assert r.trace + [] == r.trace;
    match op
    case OpListener(t) => AbortIsOne(r.sem, t, r.aborted);
    case OpResume => ResumeIsIdle(r.sem, r.aborted);
    case _ =>
  }

  lemma {:induction false} ResumeIsIdle(s: Semaphore, aborted: set<Ticket>)
    requires s.Valid()
    ensures Resume(s, aborted) == (s.(open := true), [])
  {
    if !s.open { assert Pump(s.(open := true), aborted) == (s.(open := true), []); }
  }
}
