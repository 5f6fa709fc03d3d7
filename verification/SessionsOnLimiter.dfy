/**
 The moves of `SessionTails` performed on the limiter itself. Tasks reach the
 limiter in any order, so its methods are called with any task number.
 */
module SessionsOnLimiter {
  import opened FifoSemaphore
  import opened TaskLimiter
  import opened SessionTails

  ghost predicate Holds(limiter: TaskConcurrencyLimiter, sys: System)
    reads limiter
  {
    limiter.Valid() && forall lane :: limiter.View(lane) == SemOf(sys, lane)
  }

  /** What a move of a task does to the semaphore of its lane. */
  function TaskEffect(s: Semaphore, m: Move, aborted: set<Ticket>): (Semaphore, seq<Effect>) {
    match m
    case StartTask(t) => Acquire(s, t, aborted)
    case FinishTask(t) => Release(s, aborted)
    case AbortQueued(t) => Abort(s, t, aborted)
    case _ => (s, [])
  }

  /** What a move makes the limiter do to each lane. */
  function LaneEffect(sys: System, m: Move, lane: Lane): (Semaphore, seq<Effect>)
    requires SessionTails.Enabled(sys, m)
  {
    var s, aborted := SemOf(sys, lane), AbortedTasks(sys.tasks);
    match m
    case BeginDrain => Pause(s)
    case EndDrain => Resume(s, aborted)
    case Submit(_, _) => (s, [])
    case _ => if sys.tasks[m.t].lane == lane then TaskEffect(s, m, aborted) else (s, [])
  }

  /** What the limiter's methods ask of their callers. */
  predicate CallOk(sys: System, m: Move)
    requires SessionTails.Enabled(sys, m)
  {
    && (m.FinishTask? ==> SemOf(sys, sys.tasks[m.t].lane).active > 0)
    && (m.AbortQueued? ==> m.t in SemOf(sys, sys.tasks[m.t].lane).queue)
    && (m.EndDrain? ==> LaneEffect(sys, m, Foreground).1 == [] == LaneEffect(sys, m, Background).1)
  }

  /** A running task holds a slot, a queued one waits in its lane, and nobody waits behind a drain. */
  lemma {:induction false} CallsAreLegal(sys: System, m: Move)
    requires Inv(sys) && SessionTails.Enabled(sys, m)
    ensures CallOk(sys, m)
  {
    if m.FinishTask? { HolderCounts(sys.tasks, m.t); }
    if m.AbortQueued? {
      var lane := sys.tasks[m.t].lane;
      assert Count(SemOf(sys, lane).queue, m.t) == Waits(sys.tasks, m.t, lane);
      CountedIsMember(SemOf(sys, lane).queue, m.t);
    }
    AtMostOneWakeup(sys.foreground, 0, AbortedTasks(sys.tasks));
    AtMostOneWakeup(sys.background, 0, AbortedTasks(sys.tasks));
  }

  lemma {:induction false} NextLanes(sys: System, m: Move)
    requires SessionTails.Enabled(sys, m)
    ensures forall lane :: SemOf(Next(sys, m), lane) == LaneEffect(sys, m, lane).0
  {
  }

  /** The limiter call of a task's move. */
  method CallLane(limiter: TaskConcurrencyLimiter, m: Move, lane: Lane, aborted: set<Ticket>)
    returns (notices: seq<Notice>)
    requires limiter.Valid()
    requires m.FinishTask? ==> limiter.View(lane).active > 0
    requires m.AbortQueued? ==> m.t in limiter.View(lane).queue
    modifies limiter
    ensures limiter.Valid() && limiter.View(Other(lane)) == old(limiter.View(Other(lane)))
    ensures limiter.View(lane) == TaskEffect(old(limiter.View(lane)), m, aborted).0
    ensures notices == Notices(lane, TaskEffect(old(limiter.View(lane)), m, aborted).1)
  {
    notices := [];
    match m {
      case StartTask(t) => notices := limiter.Acquire(lane, t, aborted);
      case FinishTask(t) => notices := limiter.Release(lane, _ => aborted);
      case AbortQueued(t) => notices := limiter.OnAbort(lane, t, _ => aborted);
      case _ =>
    }
  }

  /** What the limiter tells the callers in one move. */
  function Told(sys: System, m: Move): seq<Notice>
    requires SessionTails.Enabled(sys, m)
  {
    Notices(Foreground, LaneEffect(sys, m, Foreground).1) + Notices(Background, LaneEffect(sys, m, Background).1)
  }

  predicate OfTask(m: Move) {
    !m.BeginDrain? && !m.EndDrain? && !m.Submit?
  }

  lemma {:induction false} OneLane(sys: System, m: Move, lane: Lane)
    requires SessionTails.Enabled(sys, m) && OfTask(m) && lane == sys.tasks[m.t].lane
    ensures LaneEffect(sys, m, lane) == TaskEffect(SemOf(sys, lane), m, AbortedTasks(sys.tasks))
    ensures LaneEffect(sys, m, Other(lane)) == (SemOf(sys, Other(lane)), [])
    ensures Told(sys, m) == Notices(lane, LaneEffect(sys, m, lane).1)
  {
    var notices := Notices(lane, LaneEffect(sys, m, lane).1);
    assert [] + notices == notices + [] == notices;
  }

  /** The limiter call of a drain or resume. */
  method CallBoth(limiter: TaskConcurrencyLimiter, sys: System, m: Move) returns (notices: seq<Notice>)
    requires SessionTails.Enabled(sys, m) && !OfTask(m) && CallOk(sys, m) && Holds(limiter, sys)
    modifies limiter
    ensures limiter.Valid() && notices == Told(sys, m)
    ensures forall lane :: limiter.View(lane) == LaneEffect(sys, m, lane).0
  {
    notices := [];
    if m.BeginDrain? { notices := limiter.BeginDrain(); }
    if m.EndDrain? { notices := limiter.Resume(_ => AbortedTasks(sys.tasks)); }
  }

  /** The limiter call of one move, and the notices of both lanes. */
  method Call(limiter: TaskConcurrencyLimiter, sys: System, m: Move) returns (notices: seq<Notice>)
    requires SessionTails.Enabled(sys, m) && CallOk(sys, m) && Holds(limiter, sys)
    modifies limiter
    ensures limiter.Valid() && notices == Told(sys, m)
    ensures forall lane :: limiter.View(lane) == LaneEffect(sys, m, lane).0
  {
    if OfTask(m) {
      var lane := sys.tasks[m.t].lane;
      OneLane(sys, m, lane);
      assert limiter.View(Other(lane)) == SemOf(sys, Other(lane));
      notices := CallLane(limiter, m, lane, AbortedTasks(sys.tasks));
    } else {
      notices := CallBoth(limiter, sys, m);
    }
  }

  /** Drive a fresh limiter through any run of the composed system: its lanes are those of the model after
      every move, whatever order the tasks reach it in. */
  method ReplaySessions(maximum: nat, moves: seq<Move>) returns (limiter: TaskConcurrencyLimiter, sys: System)
    requires 2 <= maximum <= 32
    ensures fresh(limiter) && sys == RunAll(Initial(maximum), moves) && Holds(limiter, sys)
    decreases |moves|
  {
    if moves == [] {
      limiter := new TaskConcurrencyLimiter(maximum);
      sys := Initial(maximum);
    } else {
      var m := moves[|moves| - 1];
      limiter, sys := ReplaySessions(maximum, moves[..|moves| - 1]);
      Reachable(maximum, moves[..|moves| - 1]);
      if SessionTails.Enabled(sys, m) {
        NextLanes(sys, m);
        CallsAreLegal(sys, m);
        var notices := Call(limiter, sys, m);
        sys := Next(sys, m);
      }
    }
  }
}
