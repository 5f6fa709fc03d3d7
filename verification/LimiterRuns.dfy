/**
 Whole runs of the limiter: whatever sequence of turns drives it, each lane does
 exactly what a semaphore that never heard of the other lane would have done.
 */
module LimiterRuns {
  import opened FifoSemaphore
  import opened TaskLimiter

  /** One atomic turn of the event loop. */
  datatype Turn = On(lane: Lane, op: Op) | DrainBegins | DrainEnds

  function OpsOf(turn: Turn, lane: Lane): seq<Op> {
    match turn
    case On(l, op) => if l == lane then [op] else []
    case DrainBegins => [OpPause]
    case DrainEnds => [OpResume]
  }

  /** The turns one lane takes part in. */
  function Project(turns: seq<Turn>, lane: Lane): seq<Op> {
    if turns == [] then [] else Project(turns[..|turns| - 1], lane) + OpsOf(turns[|turns| - 1], lane)
  }

  function Capacity(maximum: nat, lane: Lane): nat
    requires maximum >= 1
  {
    if lane == Foreground then maximum - 1 else 1
  }

  /** The lane on its own: an independent semaphore that sees only its own turns. */
  function Alone(maximum: nat, turns: seq<Turn>, lane: Lane): LaneRun
    requires maximum >= 1
  {
    Run(Start(Capacity(maximum, lane)), Project(turns, lane))
  }

  /** Callers use fresh waiters, release what they hold, and pausing is common to both lanes. */
  predicate Legal(maximum: nat, past: seq<Turn>, turn: Turn)
    requires maximum >= 1
  {
    turn.On? ==> Enabled(Alone(maximum, past, turn.lane), turn.op) && !turn.op.OpPause? && !turn.op.OpResume?
  }

  predicate LegalRun(maximum: nat, turns: seq<Turn>)
    requires maximum >= 1
    decreases |turns|
  {
    turns == [] ||
    (LegalRun(maximum, turns[..|turns| - 1]) && Legal(maximum, turns[..|turns| - 1], turns[|turns| - 1]))
  }

  /** The settlements of one lane, in order. */
  function EffectsOf(notices: seq<Notice>, lane: Lane): seq<Effect> {
    if notices == [] then []
    else (if notices[0].lane == lane then [notices[0].effect] else []) + EffectsOf(notices[1..], lane)
  }

  lemma {:induction false} Regroup(a: seq<Effect>, b: seq<Effect>, c: seq<Effect>)
    ensures a + (b + c) == (a + b) + c
  {
  }

  lemma {:induction false} EffectsConcat(a: seq<Notice>, b: seq<Notice>, lane: Lane)
    ensures EffectsOf(a + b, lane) == EffectsOf(a, lane) + EffectsOf(b, lane)
  {
    if a == [] {
      assert a + b == b;
    } else {
      EffectsConcat(a[1..], b, lane);
      assert (a + b)[1..] == a[1..] + b && (a + b)[0] == a[0];
      Regroup(if a[0].lane == lane then [a[0].effect] else [], EffectsOf(a[1..], lane), EffectsOf(b, lane));
    }
  }

  lemma {:induction false} EffectsOfNotices(l: Lane, e: seq<Effect>, lane: Lane)
    ensures EffectsOf(Notices(l, e), lane) == if l == lane then e else []
  {
    if e != [] {
      EffectsOfNotices(l, e[1..], lane);
      assert Notices(l, e)[1..] == Notices(l, e[1..]);
    }
  }

  lemma {:induction false} EffectsOfBoth(f: seq<Effect>, b: seq<Effect>, lane: Lane)
    ensures EffectsOf(Notices(Foreground, f) + Notices(Background, b), lane) == if lane == Foreground then f else b
  {
    EffectsConcat(Notices(Foreground, f), Notices(Background, b), lane);
    EffectsOfNotices(Foreground, f, lane);
    EffectsOfNotices(Background, b, lane);
  }

  /** One more turn is one more step of the lanes that take part in it. */
  function Advance(r: LaneRun, turn: Turn, lane: Lane): LaneRun {
    match turn
    case On(l, op) => if l == lane then Step(r, op) else r
    case DrainBegins => Step(r, OpPause)
    case DrainEnds => Step(r, OpResume)
  }

  lemma {:induction false} AloneAdvances(maximum: nat, past: seq<Turn>, turn: Turn, lane: Lane)
    requires maximum >= 1
    ensures Alone(maximum, past + [turn], lane) == Advance(Alone(maximum, past, lane), turn, lane)
  {
    var all := past + [turn];
    assert all[..|all| - 1] == past;
    var ops := Project(past, lane);
    if OpsOf(turn, lane) == [] {
      assert Project(all, lane) == ops;
    } else {
      var op := OpsOf(turn, lane)[0];
      assert Project(all, lane) == ops + [op];
      assert (ops + [op])[..|ops|] == ops;
    }
  }

  /** What a limiter and the notices it has given have in common with two lanes run alone. */
  ghost predicate Refines(limiter: TaskConcurrencyLimiter, notices: seq<Notice>, turns: seq<Turn>)
    reads limiter
    requires limiter.maximum >= 1
  {
    && limiter.Valid()
    && limiter.View(Foreground) == Alone(limiter.maximum, turns, Foreground).sem
    && limiter.View(Background) == Alone(limiter.maximum, turns, Background).sem
    && EffectsOf(notices, Foreground) == Alone(limiter.maximum, turns, Foreground).trace
    && EffectsOf(notices, Background) == Alone(limiter.maximum, turns, Background).trace
  }

  /** The effect a turn has on one lane: new semaphore and settlements. */
  ghost predicate TurnOn(before: LaneRun, after: Semaphore, notices: seq<Notice>, turn: Turn, lane: Lane) {
    var next := Advance(before, turn, lane);
    after == next.sem && before.trace + EffectsOf(notices, lane) == next.trace
  }

  /** What the semaphore of a lane must look like for an operation to be called. */
  predicate Callable(s: Semaphore, op: Op) {
    && !op.OpPause? && !op.OpResume?
    && (op.OpRelease? ==> s.active > 0)
    && (op.OpListener? ==> op.t in s.queue)
  }

  /** An operation of one lane, carried out by the limiter. */
  method Operate(limiter: TaskConcurrencyLimiter, lane: Lane, op: Op, aborted: Lane -> set<Ticket>)
    returns (notices: seq<Notice>)
    requires limiter.Valid() && Callable(limiter.View(lane), op)
    modifies limiter
    ensures limiter.Valid() && limiter.View(Other(lane)) == old(limiter.View(Other(lane)))
    ensures limiter.View(lane) == OpEffect(old(limiter.View(lane)), op, aborted(lane)).0
    ensures notices == Notices(lane, OpEffect(old(limiter.View(lane)), op, aborted(lane)).1)
  {
    notices := [];
    match op {
      case OpAcquire(t) => notices := limiter.Acquire(lane, t, aborted(lane));
      case OpRelease(t) => notices := limiter.Release(lane, aborted);
      case OpListener(t) => notices := limiter.OnAbort(lane, t, aborted);
      case _ =>
    }
  }

  /** Execute one lane-specific turn on the limiter. */
  method Execute(limiter: TaskConcurrencyLimiter, lane: Lane, op: Op, aborted: Lane -> set<Ticket>, ghost r: LaneRun)
    returns (notices: seq<Notice>)
    requires limiter.Valid() && LaneInv(r) && limiter.View(lane) == r.sem && aborted(lane) == r.aborted
    requires Enabled(r, op) && !op.OpPause? && !op.OpResume?
    modifies limiter
    ensures limiter.Valid()
    ensures TurnOn(r, limiter.View(lane), notices, On(lane, op), lane)
    ensures limiter.View(Other(lane)) == old(limiter.View(Other(lane)))
    ensures EffectsOf(notices, Other(lane)) == []
  {
    assert op.OpRelease? ==> |r.held| > 0;
    notices := Operate(limiter, lane, op, aborted);
    StepIs(r, op);
    EffectsOfNotices(lane, OpEffect(r.sem, op, r.aborted).1, lane);
    EffectsOfNotices(lane, OpEffect(r.sem, op, r.aborted).1, Other(lane));
  }

  /** The drain and resume turns of both lanes. */
  method ExecuteBoth(limiter: TaskConcurrencyLimiter, begins: bool, aborted: Lane -> set<Ticket>,
                     ghost f: LaneRun, ghost b: LaneRun)
    returns (notices: seq<Notice>)
    requires limiter.Valid() && limiter.View(Foreground) == f.sem && limiter.View(Background) == b.sem
    requires aborted(Foreground) == f.aborted && aborted(Background) == b.aborted
    modifies limiter
    ensures limiter.Valid()
    ensures var turn := if begins then DrainBegins else DrainEnds;
      TurnOn(f, limiter.View(Foreground), notices, turn, Foreground)
      && TurnOn(b, limiter.View(Background), notices, turn, Background)
  {
    ghost var op := if begins then OpPause else OpResume;
    StepIs(f, op);
    StepIs(b, op);
    if begins {
      notices := limiter.BeginDrain();
    } else {
      AtMostOneWakeup(f.sem, 0, f.aborted);
      AtMostOneWakeup(b.sem, 0, b.aborted);
      notices := limiter.Resume(aborted);
    }
    EffectsOfBoth(OpEffect(f.sem, op, f.aborted).1, OpEffect(b.sem, op, b.aborted).1, Foreground);
    EffectsOfBoth(OpEffect(f.sem, op, f.aborted).1, OpEffect(b.sem, op, b.aborted).1, Background);
  }

  /** The aborted callers of a lane after one more turn. */
  function AbortedAfter(aborted: set<Ticket>, turn: Turn, lane: Lane): set<Ticket> {
    if turn.On? && turn.lane == lane && turn.op.OpSignal? then aborted + {turn.op.t} else aborted
  }

  lemma {:induction false} AdvanceAborted(r: LaneRun, turn: Turn, lane: Lane)
    requires turn.On? && turn.lane == lane ==> Enabled(r, turn.op)
    ensures Advance(r, turn, lane).aborted == AbortedAfter(r.aborted, turn, lane)
  {
    match turn
    case On(l, op) => if l == lane { StepAborted(r, op); }
    case DrainBegins => StepAborted(r, OpPause);
    case DrainEnds => StepAborted(r, OpResume);
  }

  /** A turn of one lane leaves the other as it was. */
  lemma {:induction false} OtherLane(r: LaneRun, notices: seq<Notice>, turn: Turn, lane: Lane)
    requires turn.On? && turn.lane != lane && EffectsOf(notices, lane) == []
    ensures TurnOn(r, r.sem, notices, turn, lane)
  {
    assert r.trace + [] == r.trace;
  }

  /** Execute any turn; the two ghost runs are what the lanes would be alone. */
  method TakeTurn(limiter: TaskConcurrencyLimiter, turn: Turn, aborted: Lane -> set<Ticket>, ghost f: LaneRun,
                  ghost b: LaneRun)
    returns (notices: seq<Notice>)
    requires limiter.Valid() && LaneInv(f) && LaneInv(b)
    requires limiter.View(Foreground) == f.sem && limiter.View(Background) == b.sem
    requires aborted(Foreground) == f.aborted && aborted(Background) == b.aborted
    requires turn.On? ==> !turn.op.OpPause? && !turn.op.OpResume?
    requires turn.On? ==> Enabled(if turn.lane == Foreground then f else b, turn.op)
    modifies limiter
    ensures limiter.Valid()
    ensures TurnOn(f, limiter.View(Foreground), notices, turn, Foreground)
    ensures TurnOn(b, limiter.View(Background), notices, turn, Background)
  {
    if turn.On? {
      notices := Execute(limiter, turn.lane, turn.op, aborted, if turn.lane == Foreground then f else b);
      OtherLane(if turn.lane == Foreground then b else f, notices, turn, Other(turn.lane));
    } else {
      notices := ExecuteBoth(limiter, turn.DrainBegins?, aborted, f, b);
    }
  }

  lemma {:induction false} TurnRefines(maximum: nat, past: seq<Turn>, turn: Turn, notices: seq<Notice>,
                                       given: seq<Notice>, lane: Lane, after: Semaphore)
    requires maximum >= 1
    requires EffectsOf(notices, lane) == Alone(maximum, past, lane).trace
    requires TurnOn(Alone(maximum, past, lane), after, given, turn, lane)
    ensures Alone(maximum, past + [turn], lane) == Advance(Alone(maximum, past, lane), turn, lane)
    ensures after == Alone(maximum, past + [turn], lane).sem
    ensures EffectsOf(notices + given, lane) == Alone(maximum, past + [turn], lane).trace
  {
    AloneAdvances(maximum, past, turn, lane);
    EffectsConcat(notices, given, lane);
  }

  /** One more turn after any refined past. */
  method Extend(limiter: TaskConcurrencyLimiter, ghost past: seq<Turn>, turn: Turn, notices: seq<Notice>,
                aborted: Lane -> set<Ticket>)
    returns (notices': seq<Notice>)
    requires limiter.maximum >= 1 && Refines(limiter, notices, past)
    requires Legal(limiter.maximum, past, turn)
    requires aborted(Foreground) == Alone(limiter.maximum, past, Foreground).aborted
    requires aborted(Background) == Alone(limiter.maximum, past, Background).aborted
    modifies limiter
    ensures Refines(limiter, notices', past + [turn])
  {
    RunKeepsInvariant(limiter.maximum - 1, Project(past, Foreground));
    RunKeepsInvariant(1, Project(past, Background));
    var given := TakeTurn(limiter, turn, aborted,
      Alone(limiter.maximum, past, Foreground), Alone(limiter.maximum, past, Background));
    TurnRefines(limiter.maximum, past, turn, notices, given, Foreground, limiter.View(Foreground));
    TurnRefines(limiter.maximum, past, turn, notices, given, Background, limiter.View(Background));
    notices' := notices + given;
  }

  lemma {:induction false} AloneAborted(maximum: nat, past: seq<Turn>, turn: Turn, lane: Lane)
    requires maximum >= 1 && Legal(maximum, past, turn)
    ensures Alone(maximum, past + [turn], lane).aborted == AbortedAfter(Alone(maximum, past, lane).aborted, turn, lane)
  {
    AloneAdvances(maximum, past, turn, lane);
    AdvanceAborted(Alone(maximum, past, lane), turn, lane);
  }

  /** Drive a fresh limiter through any legal run. Both lanes end up as if each had been alone:
      same occupancy, same line, same settlements in the same order. */
  method Replay(maximum: nat, turns: seq<Turn>)
    returns (limiter: TaskConcurrencyLimiter, notices: seq<Notice>, aborted: Lane -> set<Ticket>)
    requires 2 <= maximum <= 32 && LegalRun(maximum, turns)
    ensures fresh(limiter) && limiter.maximum == maximum && Refines(limiter, notices, turns)
    ensures forall lane :: aborted(lane) == Alone(maximum, turns, lane).aborted
    decreases |turns|
  {
    if turns == [] {
      limiter := Begin(maximum);
      notices, aborted := [], (lane: Lane) => {};
    } else {
      var past, turn := turns[..|turns| - 1], turns[|turns| - 1];
      assert turns == past + [turn];
      limiter, notices, aborted := Replay(maximum, past);
      notices := Extend(limiter, past, turn, notices, aborted);
      forall lane ensures Alone(maximum, turns, lane).aborted == AbortedAfter(aborted(lane), turn, lane) {
        AloneAborted(maximum, past, turn, lane);
      }
      aborted := (lane: Lane) => AbortedAfter(aborted(lane), turn, lane);
    }
  }

  method Begin(maximum: nat) returns (limiter: TaskConcurrencyLimiter)
    requires 2 <= maximum <= 32
    ensures fresh(limiter) && limiter.maximum == maximum && Refines(limiter, [], [])
    ensures Alone(maximum, [], Foreground).aborted == {} == Alone(maximum, [], Background).aborted
  {
    limiter := new TaskConcurrencyLimiter(maximum);
  }
}
