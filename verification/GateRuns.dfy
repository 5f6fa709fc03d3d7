/**
 Whole runs of the model gate: each lane does what a semaphore of capacity one
 would have done alone, so it never has two holders. That rests on every release
 function running once; the second half says exactly what an extra call does.
 */
module GateRuns {
  import opened FifoSemaphore
  import opened LaneLaws
  import opened TaskLimiter
  import opened ModelGate
  import opened LimiterRuns

  /** The gate never pauses. Its lanes have the capacities of a limiter of two. */
  predicate GateRun(turns: seq<Turn>) {
    LegalRun(2, turns) && forall i :: 0 <= i < |turns| ==> turns[i].On?
  }

  ghost predicate Agrees(gate: PrioritizedModelGate, notices: seq<Notice>, turns: seq<Turn>, lane: Lane)
    reads gate
  {
    && gate.View(lane) == Alone(2, turns, lane).sem
    && EffectsOf(notices, lane) == Alone(2, turns, lane).trace
  }

  /** At most one holder, and the lane is taken exactly while there is one. */
  ghost predicate Exclusive(gate: PrioritizedModelGate, turns: seq<Turn>, lane: Lane)
    reads gate
  {
    |Alone(2, turns, lane).held| == gate.View(lane).active <= 1
  }

  /** An operation of one lane, carried out by the gate. */
  method Operate(gate: PrioritizedModelGate, lane: Lane, op: Op, aborted: Lane -> set<Ticket>)
    returns (notices: seq<Notice>)
    requires gate.Valid() && Callable(gate.View(lane), op)
    modifies gate
    ensures gate.Valid() && gate.View(Other(lane)) == old(gate.View(Other(lane)))
    ensures gate.View(lane) == OpEffect(old(gate.View(lane)), op, aborted(lane)).0
    ensures notices == Notices(lane, OpEffect(old(gate.View(lane)), op, aborted(lane)).1)
  {
    notices := [];
    match op {
      case OpAcquire(t) => notices := gate.Acquire(lane, t, aborted(lane));
      case OpRelease(t) => notices := gate.Release(lane, aborted);
      case OpListener(t) => notices := gate.OnAbort(lane, t, aborted(lane));
      case _ =>
    }
  }

  /** Execute one turn of a lane on the gate. */
  method Execute(gate: PrioritizedModelGate, lane: Lane, op: Op, aborted: Lane -> set<Ticket>, ghost r: LaneRun)
    returns (notices: seq<Notice>)
    requires gate.Valid() && LaneInv(r) && gate.View(lane) == r.sem && aborted(lane) == r.aborted
    requires Enabled(r, op) && !op.OpPause? && !op.OpResume?
    modifies gate
    ensures gate.Valid()
    ensures TurnOn(r, gate.View(lane), notices, On(lane, op), lane)
    ensures gate.View(Other(lane)) == old(gate.View(Other(lane)))
    ensures EffectsOf(notices, Other(lane)) == []
  {
    assert op.OpRelease? ==> |r.held| > 0;
    notices := Operate(gate, lane, op, aborted);
    StepIs(r, op);
    EffectsOfNotices(lane, OpEffect(r.sem, op, r.aborted).1, lane);
    EffectsOfNotices(lane, OpEffect(r.sem, op, r.aborted).1, Other(lane));
  }

  /** One more turn of lane `turn.lane`; `aborted` are the aborted callers of each lane. */
  method Extend(gate: PrioritizedModelGate, ghost past: seq<Turn>, turn: Turn, notices: seq<Notice>,
                aborted: Lane -> set<Ticket>)
    returns (notices': seq<Notice>)
    requires gate.Valid() && turn.On? && Legal(2, past, turn)
    requires forall lane :: Agrees(gate, notices, past, lane) && aborted(lane) == Alone(2, past, lane).aborted
    modifies gate
    ensures gate.Valid() && forall lane :: Agrees(gate, notices', past + [turn], lane)
  {
    var lane := turn.lane;
    RunKeepsInvariant(1, Project(past, lane));
    assert Agrees(gate, notices, past, lane) && Agrees(gate, notices, past, Other(lane));
    var given := Execute(gate, lane, turn.op, aborted, Alone(2, past, lane));
    TurnRefines(2, past, turn, notices, given, lane, gate.View(lane));
    var other := Other(lane);
    assert Alone(2, past, other).trace + [] == Alone(2, past, other).trace;
    TurnRefines(2, past, turn, notices, given, other, gate.View(other));
    notices' := notices + given;
    forall l ensures Agrees(gate, notices', past + [turn], l) {
      assert Agrees(gate, notices', past + [turn], lane) && Agrees(gate, notices', past + [turn], other);
    }
  }

  /** Drive a fresh gate through any run: both lanes end up as if each had been alone, and neither ever
      has more than one holder. */
  method ReplayGate(turns: seq<Turn>)
    returns (gate: PrioritizedModelGate, notices: seq<Notice>, aborted: Lane -> set<Ticket>)
    requires GateRun(turns)
    ensures fresh(gate) && gate.Valid()
    ensures forall lane :: Agrees(gate, notices, turns, lane) && Exclusive(gate, turns, lane)
    ensures forall lane :: aborted(lane) == Alone(2, turns, lane).aborted
    decreases |turns|
  {
    if turns == [] {
      gate := new PrioritizedModelGate();
      notices, aborted := [], (lane: Lane) => {};
    } else {
      var past, turn := turns[..|turns| - 1], turns[|turns| - 1];
      assert turns == past + [turn];
      gate, notices, aborted := ReplayGate(past);
      notices := Extend(gate, past, turn, notices, aborted);
      forall lane ensures Alone(2, turns, lane).aborted == AbortedAfter(aborted(lane), turn, lane) {
        AloneAborted(2, past, turn, lane);
      }
      aborted := (lane: Lane) => AbortedAfter(aborted(lane), turn, lane);
    }
    forall lane ensures Exclusive(gate, turns, lane) {
      assert Agrees(gate, notices, turns, lane);
      RunKeepsInvariant(1, Project(turns, lane));
    }
  }

  // ---------------------------------------------------------------------
  // A release function that runs once too often
  // ---------------------------------------------------------------------

  /** A waiter whose signal is not aborted. */
  ghost predicate SomeoneWaits(q: seq<Ticket>, aborted: set<Ticket>) {
    exists t :: t in q && t !in aborted
  }

  /** The lane after a release call by somebody who does not hold it: no holder leaves. */
  function ExtraRelease(r: LaneRun): LaneRun {
    Record(r, Release(r.sem, r.aborted))
  }

  /** A free unit goes to the first waiter that is not aborted; the waiters before it are rejected. */
  lemma {:induction false} PumpOne(q: seq<Ticket>, aborted: set<Ticket>)
    ensures var p := Pump(Semaphore(1, 0, q, true), aborted);
      if SomeoneWaits(q, aborted) then exists t :: t in q && Grants(p.1) == [t]
      else p.0 == Semaphore(1, 0, [], true) && Grants(p.1) == []
    decreases |q|
  {
    var s := Semaphore(1, 0, q, true);
    if q != [] {
      var p := Pop(s, aborted);
      var rest := Pump(p.0, aborted);
      GrantsConcat([p.1], rest.1);
      assert [p.1][..0] == [];
      if q[0] in aborted {
        PumpOne(q[1..], aborted);
        assert SomeoneWaits(q, aborted) <==> SomeoneWaits(q[1..], aborted);
        assert Grants([p.1]) + Grants(rest.1) == Grants(rest.1);
      } else {
        assert rest == (p.0, []);
        assert Grants([p.1]) + Grants([]) == [q[0]];
      }
    }
  }

  /** The holders after some settlements are the holders before and the grants. */
  lemma {:induction false} HeldAfterGrants(r: LaneRun, e: seq<Effect>)
    ensures Note(r, e).held == r.held + set t | t in Grants(e)
    decreases |e|
  {
    if e != [] {
      var r1 := r.(trace := r.trace + [e[0]], held := HeldAfter(r.held, e[0]));
      HeldAfterGrants(r1, e[1..]);
      assert e == [e[0]] + e[1..];
      GrantsConcat([e[0]], e[1..]);
      assert [e[0]][..0] == [];
      assert Grants([e[0]]) == if e[0].Granted? then [e[0].ticket] else [];
    }
  }

  lemma {:induction false} WaiterHoldsNothing(r: LaneRun, t: Ticket)
    requires History(r) && t in r.sem.queue
    ensures t !in r.held
  {
    var g, q := Grants(r.trace), r.sem.queue;
    var i: nat :| i < |q| && q[i] == t;
    forall k | 0 <= k < |g| ensures g[k] != t { assert At(g + q, k) < At(g + q, |g| + i); }
  }

  /** While somebody holds a lane, an extra release lets in a second holder at once iff some waiter is not
      aborted; otherwise it leaves the lane free for the next arrival. While nobody does, it does nothing. */
  lemma {:induction false} ExtraReleaseGrantsIff(ops: seq<Op>)
    requires Run(Start(1), ops).sem.open
    ensures var r := Run(Start(1), ops); var p := Release(r.sem, r.aborted);
      && (r.held == {} ==> p == (r.sem, []))
      && (Grants(p.1) != [] <==> r.held != {} && SomeoneWaits(r.sem.queue, r.aborted))
      && (r.held != {} && SomeoneWaits(r.sem.queue, r.aborted) ==> |ExtraRelease(r).held| == 2)
      && (r.held != {} && !SomeoneWaits(r.sem.queue, r.aborted) ==>
            p.0 == Semaphore(1, 0, [], true) && ExtraRelease(r).held == r.held)
  {
    RunKeepsInvariant(1, ops);
    var r := Run(Start(1), ops);
    var p := Release(r.sem, r.aborted);
    HeldAfterGrants(r, p.1);
    if r.held == {} {
      assert r.sem.active == 0 && r.sem.queue == [];
    } else {
      assert |r.held| >= 1;
      assert Freed(r.sem) == Semaphore(1, 0, r.sem.queue, true);
      PumpOne(r.sem.queue, r.aborted);
      if SomeoneWaits(r.sem.queue, r.aborted) {
        var t :| t in r.sem.queue && Grants(p.1) == [t];
        WaiterHoldsNothing(r, t);
        assert (set u | u in [t]) == {t};
      } else {
        assert r.held + (set u | u in Grants(p.1)) == r.held;
      }
    }
  }

  lemma {:induction false} LaterThanAll(r: LaneRun) returns (t: Ticket)
    ensures Enabled(r, OpAcquire(t)) && t !in r.aborted && t !in r.held
  {
    var last := if r.arrivals == [] then 0 else r.arrivals[|r.arrivals| - 1];
    t := AboveAll(r.aborted + r.held, last + 1);
  }

  lemma {:induction false} AboveAll(s: set<Ticket>, low: Ticket) returns (t: Ticket)
    ensures t >= low && t !in s
    decreases |s|
  {
    if low !in s {
      t := low;
    } else {
      t := AboveAll(s - {low}, low + 1);
    }
  }

  // ---- the gate never closes ----

  lemma {:induction false} GateStaysOpen(turns: seq<Turn>, lane: Lane)
    requires GateRun(turns)
    ensures Alone(2, turns, lane).sem.open
    decreases |turns|
  {
    if turns != [] {
      var past, turn := turns[..|turns| - 1], turns[|turns| - 1];
      assert turns == past + [turn];
      GateStaysOpen(past, lane);
      AloneAdvances(2, past, turn, lane);
      if turn.lane == lane { StepOpen(Alone(2, past, lane), turn.op); }
    }
  }

  /** Exclusion survives an extra release, now and at the next arrival, iff nobody holds the lane. */
  lemma {:induction false} ExtraReleaseHarmlessIff(ops: seq<Op>)
    requires Run(Start(1), ops).sem.open
    ensures var r := Run(Start(1), ops);
      r.held == {} <==> (forall t :: |Step(ExtraRelease(r), OpAcquire(t)).held| <= 1)
  {
    var r := Run(Start(1), ops);
    ExtraReleaseGrantsIff(ops);
    RunKeepsInvariant(1, ops);
    if r.held == {} {
      assert ExtraRelease(r) == r;
      forall t ensures |Step(r, OpAcquire(t)).held| <= 1 {
        assert (ops + [OpAcquire(t)])[..|ops|] == ops;
        RunKeepsInvariant(1, ops + [OpAcquire(t)]);
      }
    } else {
      var r1 := ExtraRelease(r);
      var t := LaterThanAll(r1);
      SecondHolder(r1, t);
      assert |Step(r1, OpAcquire(t)).held| >= 2;
    }
  }

  lemma {:induction false} SecondHolder(r1: LaneRun, t: Ticket)
    requires Enabled(r1, OpAcquire(t)) && t !in r1.aborted && t !in r1.held
    requires |r1.held| == 2 || (r1.sem == Semaphore(1, 0, [], true) && |r1.held| == 1)
    ensures |Step(r1, OpAcquire(t)).held| >= 2
  {
    var p := Acquire(r1.sem, t, r1.aborted);
    HeldAfterGrants(r1.(arrivals := r1.arrivals + [t]), p.1);
    if |r1.held| == 1 {
      assert [Granted(t)][..0] == [] && Grants([Granted(t)]) == [t];
    } else {
      var more := set u | u in Grants(p.1);
      assert |r1.held + more| >= |r1.held| by { Superset(r1.held, more); }
    }
  }

  lemma {:induction false} Superset(a: set<Ticket>, b: set<Ticket>)
    ensures |a + b| >= |a|
  {
    assert |(a + b) - a| == |a + b| - |a|;
  }

  /** After any run of the gate, an extra release of a lane keeps exclusion iff nobody holds that lane; it
      lets in a second holder at once iff somebody does and some waiter is not aborted. */
  lemma {:induction false} GateNeedsSingleRelease(turns: seq<Turn>, lane: Lane)
    requires GateRun(turns)
    ensures var r := Alone(2, turns, lane);
      && (r.held == {} <==> (forall t :: |Step(ExtraRelease(r), OpAcquire(t)).held| <= 1))
      && (|ExtraRelease(r).held| == 2 <==> r.held != {} && SomeoneWaits(r.sem.queue, r.aborted))
  {
    GateStaysOpen(turns, lane);
    RunKeepsInvariant(1, Project(turns, lane));
    ExtraReleaseGrantsIff(Project(turns, lane));
    ExtraReleaseHarmlessIff(Project(turns, lane));
    if Alone(2, turns, lane).held == {} { assert ExtraRelease(Alone(2, turns, lane)) == Alone(2, turns, lane); }
  }
}
