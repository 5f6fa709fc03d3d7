/**
 Per-session promise tails composed with the task limiter: `runSerialized` and
 `runFixedToolTask` chain a task behind the tail of its session, and only when
 that tail has settled does the task ask the limiter for a slot.

 The limiter appears as its two independent lanes, and the ticket of a waiter is
 the number of its task. `SessionsOnLimiter` performs the moves on the limiter.
 */
module SessionTails {
  import opened Options
  import opened FifoSemaphore
  import opened TaskLimiter

  /** Chained: behind its predecessor. Queued: waiting in the limiter. Running: holds a slot.
      Ended: its action is over and the slot is back. Settled: its tail promise has settled. */
  datatype Phase = Chained | Queued | Running | Ended | Settled

  datatype Task = Task(session: string, lane: Lane, predecessor: Option<nat>, phase: Phase, aborted: bool)

  datatype System = System(tasks: seq<Task>, tails: map<string, nat>, foreground: Semaphore, background: Semaphore)

  datatype Move =
    | Submit(session: string, lane: Lane)
    | StartTask(t: nat)     // the predecessor's tail has settled: ask for a slot
    | FinishTask(t: nat)    // the action is over: release the slot
    | SignalAbort(t: nat)
    | AbortQueued(t: nat)   // the abort listener of a queued task
    | SettleTail(t: nat)
    | DeleteTail(t: nat)    // the clean-up that runs after a tail has settled
    | BeginDrain
    | EndDrain

  function SemOf(sys: System, lane: Lane): Semaphore {
    if lane == Foreground then sys.foreground else sys.background
  }

  function WithSem(sys: System, lane: Lane, s: Semaphore): System {
    if lane == Foreground then sys.(foreground := s) else sys.(background := s)
  }

  function AbortedTasks(tasks: seq<Task>): set<Ticket> {
    set i: int | 0 <= i < |tasks| && tasks[i].aborted :: i
  }

  function SetPhase(tasks: seq<Task>, t: int, p: Phase): (r: seq<Task>)
    ensures |r| == |tasks|
  {
    if 0 <= t < |tasks| then tasks[t := tasks[t].(phase := p)] else tasks
  }

  /** Resume the promises the limiter has settled. */
  function Deliver(tasks: seq<Task>, e: seq<Effect>): (r: seq<Task>)
    ensures |r| == |tasks|
    decreases |e|
  {
    if e == [] then tasks
    else Deliver(SetPhase(tasks, e[0].ticket, if e[0].Granted? then Running else Ended), e[1..])
  }

  function Apply(sys: System, lane: Lane, p: (Semaphore, seq<Effect>)): System {
    WithSem(sys, lane, p.0).(tasks := Deliver(sys.tasks, p.1))
  }

  predicate Ready(sys: System, t: nat) {
    && t < |sys.tasks| && sys.tasks[t].phase == Chained
    && (sys.tasks[t].predecessor.None?
        || (sys.tasks[t].predecessor.value < |sys.tasks| && sys.tasks[sys.tasks[t].predecessor.value].phase == Settled))
  }

  predicate Enabled(sys: System, m: Move) {
    match m
    case StartTask(t) => Ready(sys, t)
    case FinishTask(t) => t < |sys.tasks| && sys.tasks[t].phase == Running
    case SignalAbort(t) => t < |sys.tasks|
    case AbortQueued(t) => t < |sys.tasks| && sys.tasks[t].phase == Queued && sys.tasks[t].aborted
    case SettleTail(t) => t < |sys.tasks| && sys.tasks[t].phase == Ended
    case DeleteTail(t) =>
      && t < |sys.tasks| && sys.tasks[t].phase == Settled
      && sys.tasks[t].session in sys.tails && sys.tails[sys.tasks[t].session] == t
    case _ => true
  }

  function Next(sys: System, m: Move): System {
    if !Enabled(sys, m) then sys else
    var aborted := AbortedTasks(sys.tasks);
    match m
    case Submit(session, lane) =>
      var predecessor := if session in sys.tails then Some(sys.tails[session]) else None;
      sys.(tasks := sys.tasks + [Task(session, lane, predecessor, Chained, false)],
           tails := sys.tails[session := |sys.tasks|])
    case StartTask(t) =>
      var lane := sys.tasks[t].lane;
      Apply(sys.(tasks := SetPhase(sys.tasks, t, Queued)), lane, Acquire(SemOf(sys, lane), t, aborted))
    case FinishTask(t) =>
      var lane := sys.tasks[t].lane;
      Apply(sys.(tasks := SetPhase(sys.tasks, t, Ended)), lane, Release(SemOf(sys, lane), aborted))
    case SignalAbort(t) => sys.(tasks := sys.tasks[t := sys.tasks[t].(aborted := true)])
    case AbortQueued(t) =>
      var lane := sys.tasks[t].lane;
      Apply(sys, lane, Abort(SemOf(sys, lane), t, aborted))
    case SettleTail(t) => sys.(tasks := SetPhase(sys.tasks, t, Settled))
    case DeleteTail(t) => sys.(tails := sys.tails - {sys.tasks[t].session})
    case BeginDrain =>
      Apply(Apply(sys, Foreground, Pause(sys.foreground)), Background, Pause(sys.background))
    case EndDrain =>
      Apply(Apply(sys, Foreground, Resume(sys.foreground, aborted)), Background, Resume(sys.background, aborted))
  }

  function Initial(maximum: nat): System
    requires maximum >= 2
  {
    System([], map[], Semaphore(maximum - 1, 0, [], true), Semaphore(1, 0, [], true))
  }

  function RunAll(sys: System, moves: seq<Move>): System {
    if moves == [] then sys else Next(RunAll(sys, moves[..|moves| - 1]), moves[|moves| - 1])
  }

  // ---------------------------------------------------------------------
  // The limiter and the phases agree
  // ---------------------------------------------------------------------

  /** How many tasks of a lane hold a slot. */
  function SlotsHeld(tasks: seq<Task>, lane: Lane): nat {
    if tasks == [] then 0
    else SlotsHeld(tasks[..|tasks| - 1], lane) + Slot(tasks[|tasks| - 1], lane)
  }

  function Slot(t: Task, lane: Lane): nat {
    if t.phase == Running && t.lane == lane then 1 else 0
  }

  function Waits(tasks: seq<Task>, i: int, lane: Lane): nat {
    if 0 <= i < |tasks| && tasks[i].phase == Queued && tasks[i].lane == lane then 1 else 0
  }

  /** The queue of a lane holds exactly its queued tasks, once each; its units are its running tasks. */
  ghost predicate LaneOk(tasks: seq<Task>, s: Semaphore, lane: Lane) {
    && (forall i: int :: Count(s.queue, i) == Waits(tasks, i, lane))
    && s.active == SlotsHeld(tasks, lane)
  }

  lemma {:induction false} SlotsAfter(tasks: seq<Task>, i: nat, x: Task, lane: Lane)
    requires i < |tasks|
    ensures SlotsHeld(tasks[i := x], lane) == SlotsHeld(tasks, lane) - Slot(tasks[i], lane) + Slot(x, lane)
  {
    var n := |tasks| - 1;
    if i < n {
      SlotsAfter(tasks[..n], i, x, lane);
      assert tasks[i := x][..n] == tasks[..n][i := x];
    } else {
      assert tasks[i := x][..n] == tasks[..n];
    }
  }

  /** Changing the phase of one task while its lane entry changes accordingly. */
  lemma {:induction false} PhaseChange(tasks: seq<Task>, s: Semaphore, s': Semaphore, t: nat, p: Phase, lane: Lane)
    requires LaneOk(tasks, s, lane) && t < |tasks|
    requires tasks[t].lane == lane ==>
      && (forall i: int :: i != t ==> Count(s'.queue, i) == Count(s.queue, i))
      && Count(s'.queue, t) == (if p == Queued then 1 else 0)
      && s'.active == s.active - (if tasks[t].phase == Running then 1 else 0) + (if p == Running then 1 else 0)
    requires tasks[t].lane != lane ==> s' == s
    ensures LaneOk(SetPhase(tasks, t, p), s', lane)
  {
    SlotsAfter(tasks, t, tasks[t].(phase := p), lane);
    var tasks' := SetPhase(tasks, t, p);
    forall i: int ensures Count(s'.queue, i) == Waits(tasks', i, lane) {
      assert Count(s.queue, i) == Waits(tasks, i, lane);
    }
  }

  /** Settling the head of a queue. */
  lemma {:induction false} PopOk(tasks: seq<Task>, s: Semaphore, aborted: set<Ticket>, lane: Lane, other: Semaphore)
    requires LaneOk(tasks, s, lane) && LaneOk(tasks, other, Other(lane)) && s.queue != []
    ensures 0 <= s.queue[0] < |tasks| && tasks[s.queue[0]].phase == Queued && tasks[s.queue[0]].lane == lane
    ensures LaneOk(Popped(tasks, s, aborted), Pop(s, aborted).0, lane)
    ensures LaneOk(Popped(tasks, s, aborted), other, Other(lane))
  {
    var h := s.queue[0];
    assert Count(s.queue, h) == Waits(tasks, h, lane);
    var p := Pop(s, aborted);
    var to := if p.1.Granted? then Running else Ended;
    PhaseChange(tasks, s, p.0, h, to, lane);
    PhaseChange(tasks, other, other, h, to, Other(lane));
  }

  /** What settling promises leaves alone. */
  ghost predicate SameShape(a: seq<Task>, b: seq<Task>) {
    && |a| == |b|
    && forall i :: 0 <= i < |a| ==> Alike(a[i], b[i])
  }

  predicate Alike(x: Task, y: Task) {
    && x.session == y.session && x.lane == y.lane && x.predecessor == y.predecessor && x.aborted == y.aborted
    && (x.phase == Settled <==> y.phase == Settled) && (x.phase == Chained <==> y.phase == Chained)
    && Rank(y.phase) <= Rank(x.phase)
  }

  /** Remaining work of one task. */
  function Rank(p: Phase): nat {
    match p
    case Chained => 4
    case Queued => 3
    case Running => 2
    case Ended => 1
    case Settled => 0
  }

  /** The tasks after the head of a queue was settled. */
  function Popped(tasks: seq<Task>, s: Semaphore, aborted: set<Ticket>): seq<Task>
    requires s.queue != []
  {
    SetPhase(tasks, s.queue[0], if s.queue[0] in aborted then Ended else Running)
  }

  lemma {:induction false} PumpUnfolds(tasks: seq<Task>, s: Semaphore, aborted: set<Ticket>)
    requires s.Runnable()
    ensures Pump(s, aborted).0 == Pump(Pop(s, aborted).0, aborted).0
    ensures Deliver(tasks, Pump(s, aborted).1) == Deliver(Popped(tasks, s, aborted), Pump(Pop(s, aborted).0, aborted).1)
  {
    assert Pump(s, aborted).1[1..] == Pump(Pop(s, aborted).0, aborted).1;
  }

  lemma {:induction false} PoppedShape(tasks: seq<Task>, s: Semaphore, aborted: set<Ticket>)
    requires s.queue != [] && 0 <= s.queue[0] < |tasks| && tasks[s.queue[0]].phase == Queued
    ensures SameShape(tasks, Popped(tasks, s, aborted))
  {
  }

  lemma {:induction false} PumpOk(tasks: seq<Task>, s: Semaphore, aborted: set<Ticket>, lane: Lane, other: Semaphore)
    requires LaneOk(tasks, s, lane) && LaneOk(tasks, other, Other(lane))
    ensures var p := Pump(s, aborted); var tasks' := Deliver(tasks, p.1);
      LaneOk(tasks', p.0, lane) && LaneOk(tasks', other, Other(lane)) && SameShape(tasks, tasks')
    decreases |s.queue|
  {
    if s.Runnable() {
      PopOk(tasks, s, aborted, lane, other);
      PoppedShape(tasks, s, aborted);
      PumpUnfolds(tasks, s, aborted);
      var s1, tasks1 := Pop(s, aborted).0, Popped(tasks, s, aborted);
      PumpOk(tasks1, s1, aborted, lane, other);
      ShapeTransitive(tasks, tasks1, Deliver(tasks1, Pump(s1, aborted).1));
    } else {
      ShapeRefl(tasks);
    }
  }

  lemma {:induction false} PauseHead(tasks: seq<Task>, s: Semaphore, lane: Lane, other: Semaphore)
    requires LaneOk(tasks, s, lane) && LaneOk(tasks, other, Other(lane)) && s.queue != []
    ensures var tasks' := SetPhase(tasks, s.queue[0], Ended);
      && LaneOk(tasks', s.(queue := s.queue[1..]), lane) && LaneOk(tasks', other, Other(lane))
      && SameShape(tasks, tasks')
      && Deliver(tasks, PausedAll(s.queue)) == Deliver(tasks', PausedAll(s.queue[1..]))
  {
    var h := s.queue[0];
    assert Count(s.queue, h) == Waits(tasks, h, lane);
    PhaseChange(tasks, s, s.(queue := s.queue[1..]), h, Ended, lane);
    PhaseChange(tasks, other, other, h, Ended, Other(lane));
    assert PausedAll(s.queue)[1..] == PausedAll(s.queue[1..]);
  }

  lemma {:induction false} PauseOk(tasks: seq<Task>, s: Semaphore, lane: Lane, other: Semaphore)
    requires LaneOk(tasks, s, lane) && LaneOk(tasks, other, Other(lane))
    ensures var tasks' := Deliver(tasks, PausedAll(s.queue));
      && LaneOk(tasks', s.(open := false, queue := []), lane)
      && LaneOk(tasks', other, Other(lane)) && SameShape(tasks, tasks')
    decreases |s.queue|
  {
    if s.queue != [] {
      var s1, tasks1 := s.(queue := s.queue[1..]), SetPhase(tasks, s.queue[0], Ended);
      PauseHead(tasks, s, lane, other);
      PauseOk(tasks1, s1, lane, other);
      ShapeTransitive(tasks, tasks1, Deliver(tasks1, PausedAll(s1.queue)));
    } else {
      ShapeRefl(tasks);
    }
  }

  // ---------------------------------------------------------------------
  // The chains of the sessions
  // ---------------------------------------------------------------------

  predicate SameSession(tasks: seq<Task>, a: nat, b: nat) {
    a < |tasks| && b < |tasks| && tasks[a].session == tasks[b].session
  }

  /** A task that has left its chain has only settled tasks of its session before it. */
  ghost predicate Serial(tasks: seq<Task>) {
    forall a: nat, b: nat :: a < b && SameSession(tasks, a, b) && tasks[b].phase != Chained
      ==> tasks[a].phase == Settled
  }

  /** A predecessor is the closest earlier task of the session; without one, all earlier tasks have settled. */
  ghost predicate Chain(tasks: seq<Task>) {
    && (forall b: nat :: b < |tasks| && tasks[b].predecessor.Some? ==>
          tasks[b].predecessor.value < b && SameSession(tasks, tasks[b].predecessor.value, b))
    && (forall a: nat, b: nat :: a < b && SameSession(tasks, a, b) ==>
          match tasks[b].predecessor
          case None => tasks[a].phase == Settled
          case Some(p) => a <= p)
  }

  /** A tail entry is the newest task of its session; a session without entry is entirely settled. */
  ghost predicate TailsOk(sys: System) {
    && (forall s :: s in sys.tails ==> sys.tails[s] < |sys.tasks| && sys.tasks[sys.tails[s]].session == s)
    && (forall u: nat :: u < |sys.tasks| ==>
          if sys.tasks[u].session in sys.tails then u <= sys.tails[sys.tasks[u].session]
          else sys.tasks[u].phase == Settled)
  }

  ghost predicate SessionsOk(sys: System) {
    Serial(sys.tasks) && Chain(sys.tasks) && TailsOk(sys)
  }

  ghost predicate LanesOk(sys: System) {
    && sys.foreground.Valid() && sys.background.Valid()
    && sys.foreground.capacity >= 1 && sys.background.capacity >= 1
    && LaneOk(sys.tasks, sys.foreground, Foreground) && LaneOk(sys.tasks, sys.background, Background)
  }

  ghost predicate Inv(sys: System) {
    SessionsOk(sys) && LanesOk(sys)
  }

  lemma {:induction false} ShapeKeepsSessions(sys: System, sys': System)
    requires SessionsOk(sys) && SameShape(sys.tasks, sys'.tasks) && sys'.tails == sys.tails
    ensures SessionsOk(sys')
  {
    var x, y := sys.tasks, sys'.tasks;
    assert forall i :: 0 <= i < |x| ==> Alike(x[i], y[i]);
    assert Serial(y) by {
      forall a: nat, b: nat | a < b && SameSession(y, a, b) && y[b].phase != Chained ensures y[a].phase == Settled {
        assert Alike(x[a], y[a]) && Alike(x[b], y[b]) && SameSession(x, a, b);
      }
    }
    assert Chain(y) by {
      forall b: nat | b < |y| && y[b].predecessor.Some?
        ensures y[b].predecessor.value < b && SameSession(y, y[b].predecessor.value, b)
      {
        assert Alike(x[b], y[b]);
        var p := x[b].predecessor.value;
        assert SameSession(x, p, b) && Alike(x[p], y[p]);
      }
      forall a: nat, b: nat | a < b && SameSession(y, a, b)
        ensures match y[b].predecessor case None => y[a].phase == Settled case Some(p) => a <= p
      {
        assert Alike(x[a], y[a]) && Alike(x[b], y[b]) && SameSession(x, a, b);
      }
    }
  }

  /** One task moves forward without settling. */
  lemma {:induction false} PhaseShape(tasks: seq<Task>, t: nat, p: Phase)
    requires t < |tasks| && tasks[t].phase != Chained && tasks[t].phase != Settled
    requires p != Chained && p != Settled && Rank(p) <= Rank(tasks[t].phase)
    ensures SameShape(tasks, SetPhase(tasks, t, p))
  {
  }

  lemma {:induction false} ShapeTransitive(a: seq<Task>, b: seq<Task>, c: seq<Task>)
    requires SameShape(a, b) && SameShape(b, c)
    ensures SameShape(a, c)
  {
    forall i | 0 <= i < |a| ensures Alike(a[i], c[i]) { assert Alike(a[i], b[i]) && Alike(b[i], c[i]); }
  }

  // ---------------------------------------------------------------------
  // Every move keeps the invariant
  // ---------------------------------------------------------------------

  /** The tasks after one more of this session was submitted behind the session's tail. */
  lemma {:induction false} SubmitSessions(sys: System, y: seq<Task>)
    requires SessionsOk(sys) && |y| == |sys.tasks| + 1 && y[..|sys.tasks|] == sys.tasks
    requires var z := y[|sys.tasks|];
      && z.phase == Chained
      && z.predecessor == if z.session in sys.tails then Some(sys.tails[z.session]) else None
    ensures Serial(y) && Chain(y)
  {
    var x, n := sys.tasks, |sys.tasks|;
    assert forall i :: 0 <= i < n ==> y[i] == y[..n][i];
    assert Serial(y) by {
      forall a: nat, b: nat | a < b && SameSession(y, a, b) && y[b].phase != Chained ensures y[a].phase == Settled {
        assert SameSession(x, a, b);
      }
    }
    assert Chain(y) by {
      forall b: nat | b < |y| && y[b].predecessor.Some?
        ensures y[b].predecessor.value < b && SameSession(y, y[b].predecessor.value, b)
      {
        if b < n { assert SameSession(x, x[b].predecessor.value, b); }
      }
      forall a: nat, b: nat | a < b && SameSession(y, a, b)
        ensures match y[b].predecessor case None => y[a].phase == Settled case Some(p) => a <= p
      {
        if b < n { assert SameSession(x, a, b); }
      }
    }
  }

  lemma {:induction false} SubmitLane(tasks: seq<Task>, z: Task, s: Semaphore, lane: Lane)
    requires LaneOk(tasks, s, lane) && z.phase == Chained
    ensures LaneOk(tasks + [z], s, lane)
  {
    assert (tasks + [z])[..|tasks|] == tasks;
    forall i: int ensures Count(s.queue, i) == Waits(tasks + [z], i, lane) {
      assert Count(s.queue, i) == Waits(tasks, i, lane);
    }
  }

  lemma {:induction false} SubmitTails(sys: System, session: string, lane: Lane)
    requires TailsOk(sys)
    ensures TailsOk(Next(sys, Submit(session, lane)))
  {
  }

  lemma {:induction false} SubmitKeeps(sys: System, session: string, lane: Lane)
    requires Inv(sys)
    ensures Inv(Next(sys, Submit(session, lane)))
  {
    var sys' := Next(sys, Submit(session, lane));
    var z := sys'.tasks[|sys.tasks|];
    assert sys'.tasks == sys.tasks + [z];
    SubmitSessions(sys, sys'.tasks);
    SubmitTails(sys, session, lane);
    SubmitLane(sys.tasks, z, sys.foreground, Foreground);
    SubmitLane(sys.tasks, z, sys.background, Background);
  }

  lemma {:induction false} StartShape(sys: System, t: nat)
    requires SessionsOk(sys) && Ready(sys, t)
    ensures SessionsOk(sys.(tasks := SetPhase(sys.tasks, t, Queued)))
  {
    var x, y := sys.tasks, SetPhase(sys.tasks, t, Queued);
    assert Serial(y) by {
      forall a: nat, b: nat | a < b && SameSession(y, a, b) && y[b].phase != Chained ensures y[a].phase == Settled {
        assert SameSession(x, a, b);
        if b == t {
          if x[t].predecessor.Some? {
            var p := x[t].predecessor.value;
            assert SameSession(x, p, t) && a <= p;
            if a < p { assert SameSession(x, a, p); }
          }
        } else {
          assert x[a].phase == Settled;
        }
      }
    }
    assert Chain(y) by {
      forall b: nat | b < |y| && y[b].predecessor.Some?
        ensures y[b].predecessor.value < b && SameSession(y, y[b].predecessor.value, b)
      {
        assert SameSession(x, x[b].predecessor.value, b);
      }
      forall a: nat, b: nat | a < b && SameSession(y, a, b)
        ensures match y[b].predecessor case None => y[a].phase == Settled case Some(p) => a <= p
      {
        assert SameSession(x, a, b);
      }
    }
  }

  /** A task of the lane joins its queue and may be settled at once. */
  lemma {:induction false} StartLanes(tasks: seq<Task>, s: Semaphore, t: nat, aborted: set<Ticket>, other: Semaphore)
    requires t < |tasks| && tasks[t].phase == Chained && s.Valid()
    requires LaneOk(tasks, s, tasks[t].lane) && LaneOk(tasks, other, Other(tasks[t].lane))
    ensures var p := Acquire(s, t, aborted);
      var tasks' := Deliver(SetPhase(tasks, t, Queued), p.1);
      && LaneOk(tasks', p.0, tasks[t].lane) && LaneOk(tasks', other, Other(tasks[t].lane))
      && p.0.Valid() && p.0.capacity == s.capacity
      && SameShape(SetPhase(tasks, t, Queued), tasks')
  {
    var lane, joined, p := tasks[t].lane, s.(queue := s.queue + [t]), Acquire(s, t, aborted);
    var tasks1 := SetPhase(tasks, t, Queued);
    assert Count(s.queue, t) == Waits(tasks, t, lane);
    forall i: int ensures Count(joined.queue, i) == Count(s.queue, i) + if i == t then 1 else 0 {
      CountConcat(s.queue, [t], i);
    }
    PhaseChange(tasks, s, joined, t, Queued, lane);
    PhaseChange(tasks, other, other, t, Queued, Other(lane));
    if p.1 != [] {
      var to := if p.1[0].Granted? then Running else Ended;
      PhaseChange(tasks1, joined, p.0, t, to, lane);
      PhaseChange(tasks1, other, other, t, to, Other(lane));
      PhaseShape(tasks1, t, to);
      assert p.1[1..] == [];
    }
  }

  lemma {:induction false} StartKeeps(sys: System, t: nat)
    requires Inv(sys) && Ready(sys, t)
    ensures var sys' := Next(sys, StartTask(t)); Inv(sys') && Work(sys'.tasks) < Work(sys.tasks)
  {
    var x, lane := sys.tasks, sys.tasks[t].lane;
    var sys' := Next(sys, StartTask(t));
    StartShape(sys, t);
    StartLanes(x, SemOf(sys, lane), t, AbortedTasks(x), SemOf(sys, Other(lane)));
    ShapeKeepsSessions(sys.(tasks := SetPhase(x, t, Queued)), sys');
    WorkAfter(x, t, x[t].(phase := Queued));
    ShapeWork(SetPhase(x, t, Queued), sys'.tasks);
  }

  lemma {:induction false} FinishLanes(tasks: seq<Task>, s: Semaphore, t: nat, aborted: set<Ticket>, other: Semaphore)
    requires t < |tasks| && tasks[t].phase == Running && s.Valid()
    requires LaneOk(tasks, s, tasks[t].lane) && LaneOk(tasks, other, Other(tasks[t].lane))
    ensures var p := Release(s, aborted);
      var tasks1 := SetPhase(tasks, t, Ended);
      var tasks' := Deliver(tasks1, p.1);
      && LaneOk(tasks', p.0, tasks[t].lane) && LaneOk(tasks', other, Other(tasks[t].lane))
      && p.0.Valid() && p.0.capacity == s.capacity
      && SameShape(tasks, tasks1) && SameShape(tasks1, tasks')
  {
    var lane, tasks1 := tasks[t].lane, SetPhase(tasks, t, Ended);
    HolderCounts(tasks, t);
    assert Count(s.queue, t) == Waits(tasks, t, lane);
    PhaseChange(tasks, s, Freed(s), t, Ended, lane);
    PhaseChange(tasks, other, other, t, Ended, Other(lane));
    PhaseShape(tasks, t, Ended);
    PumpOk(tasks1, Freed(s), aborted, lane, other);
    PumpSaturates(Freed(s), aborted);
    PumpCapacity(Freed(s), aborted);
  }

  /** The lanes after a task has finished; its promise and those of the granted waiters keep their shape. */
  lemma {:induction false} FinishSystem(sys: System, t: nat) returns (sys': System)
    requires LanesOk(sys) && t < |sys.tasks| && sys.tasks[t].phase == Running
    ensures sys' == Next(sys, FinishTask(t)) && LanesOk(sys') && sys'.tails == sys.tails
    ensures SameShape(sys.tasks, SetPhase(sys.tasks, t, Ended)) && SameShape(SetPhase(sys.tasks, t, Ended), sys'.tasks)
  {
    var lane := sys.tasks[t].lane;
    FinishLanes(sys.tasks, SemOf(sys, lane), t, AbortedTasks(sys.tasks), SemOf(sys, Other(lane)));
    sys' := Next(sys, FinishTask(t));
  }

  /** A task that has moved on without settling leaves the rest of the invariant alone, and has less to do. */
  lemma {:induction false} MovedOn(sys: System, sys': System, t: nat, p: Phase)
    requires Inv(sys) && LanesOk(sys') && sys'.tails == sys.tails
    requires t < |sys.tasks| && Rank(p) < Rank(sys.tasks[t].phase)
    requires SameShape(sys.tasks, SetPhase(sys.tasks, t, p)) && SameShape(SetPhase(sys.tasks, t, p), sys'.tasks)
    ensures Inv(sys') && Work(sys'.tasks) < Work(sys.tasks)
  {
    ShapeTransitive(sys.tasks, SetPhase(sys.tasks, t, p), sys'.tasks);
    ShapeKeepsSessions(sys, sys');
    WorkAfter(sys.tasks, t, sys.tasks[t].(phase := p));
    ShapeWork(SetPhase(sys.tasks, t, p), sys'.tasks);
  }

  lemma {:induction false} FinishKeeps(sys: System, t: nat) returns (sys': System)
    requires Inv(sys) && t < |sys.tasks| && sys.tasks[t].phase == Running
    ensures sys' == Next(sys, FinishTask(t)) && Inv(sys') && Work(sys'.tasks) < Work(sys.tasks)
  {
    sys' := FinishSystem(sys, t);
    MovedOn(sys, sys', t, Ended);
  }

  lemma {:induction false} PumpCapacity(s: Semaphore, aborted: set<Ticket>)
    ensures Pump(s, aborted).0.capacity == s.capacity
    decreases |s.queue|
  {
    if s.Runnable() { PumpCapacity(Pop(s, aborted).0, aborted); }
  }

  /** A running task is counted. */
  lemma {:induction false} HolderCounts(tasks: seq<Task>, t: nat)
    requires t < |tasks| && tasks[t].phase == Running
    ensures SlotsHeld(tasks, tasks[t].lane) >= 1
  {
    if t < |tasks| - 1 { HolderCounts(tasks[..|tasks| - 1], t); }
  }

  lemma {:induction false} AbortLanes(tasks: seq<Task>, s: Semaphore, t: nat, aborted: set<Ticket>, other: Semaphore)
    requires t < |tasks| && tasks[t].phase == Queued && s.Valid()
    requires LaneOk(tasks, s, tasks[t].lane) && LaneOk(tasks, other, Other(tasks[t].lane))
    ensures var p := Abort(s, t, aborted);
      var tasks' := SetPhase(tasks, t, Ended);
      && Deliver(tasks, p.1) == tasks' && p.0.Valid() && p.0.capacity == s.capacity && SameShape(tasks, tasks')
      && LaneOk(tasks', p.0, tasks[t].lane) && LaneOk(tasks', other, Other(tasks[t].lane))
  {
    var lane := tasks[t].lane;
    assert Count(s.queue, t) == Waits(tasks, t, lane) == 1;
    CountedIsMember(s.queue, t);
    AbortSettlesOne(s, t, aborted);
    var s' := s.(queue := Without(s.queue, t));
    forall i: int ensures Count(s'.queue, i) == Count(s.queue, i) - if i == t then 1 else 0 {
      WithoutCounts(s.queue, t, i);
    }
    PhaseChange(tasks, s, s', t, Ended, lane);
    PhaseChange(tasks, other, other, t, Ended, Other(lane));
    PhaseShape(tasks, t, Ended);
    assert [Aborted(t)][1..] == [];
  }

  lemma {:induction false} AbortSystem(sys: System, t: nat) returns (sys': System)
    requires LanesOk(sys) && Enabled(sys, AbortQueued(t))
    ensures sys' == Next(sys, AbortQueued(t)) && LanesOk(sys') && sys'.tails == sys.tails
    ensures SameShape(sys.tasks, SetPhase(sys.tasks, t, Ended)) && sys'.tasks == SetPhase(sys.tasks, t, Ended)
  {
    var lane := sys.tasks[t].lane;
    AbortLanes(sys.tasks, SemOf(sys, lane), t, AbortedTasks(sys.tasks), SemOf(sys, Other(lane)));
    sys' := Next(sys, AbortQueued(t));
  }

  lemma {:induction false} AbortKeeps(sys: System, t: nat) returns (sys': System)
    requires Inv(sys) && Enabled(sys, AbortQueued(t))
    ensures sys' == Next(sys, AbortQueued(t)) && Inv(sys') && Work(sys'.tasks) < Work(sys.tasks)
  {
    sys' := AbortSystem(sys, t);
    ShapeRefl(sys'.tasks);
    MovedOn(sys, sys', t, Ended);
  }

  lemma {:induction false} CountedIsMember(q: seq<Ticket>, t: Ticket)
    ensures Count(q, t) > 0 ==> t in q
  {
    if q != [] { CountedIsMember(q[1..], t); }
  }

  lemma {:induction false} SettleSessions(sys: System, t: nat)
    requires Serial(sys.tasks) && Chain(sys.tasks) && t < |sys.tasks| && sys.tasks[t].phase == Ended
    ensures Serial(SetPhase(sys.tasks, t, Settled)) && Chain(SetPhase(sys.tasks, t, Settled))
  {
    var x, y := sys.tasks, SetPhase(sys.tasks, t, Settled);
    assert Serial(y) by {
      forall a: nat, b: nat | a < b && SameSession(y, a, b) && y[b].phase != Chained ensures y[a].phase == Settled {
        assert SameSession(x, a, b);
      }
    }
    assert Chain(y) by {
      forall b: nat | b < |y| && y[b].predecessor.Some?
        ensures y[b].predecessor.value < b && SameSession(y, y[b].predecessor.value, b)
      {
        assert SameSession(x, x[b].predecessor.value, b);
      }
      forall a: nat, b: nat | a < b && SameSession(y, a, b)
        ensures match y[b].predecessor case None => y[a].phase == Settled case Some(p) => a <= p
      {
        assert SameSession(x, a, b);
      }
    }
  }

  lemma {:induction false} SettleLanes(sys: System, t: nat)
    requires LanesOk(sys) && t < |sys.tasks| && sys.tasks[t].phase == Ended
    ensures LanesOk(sys.(tasks := SetPhase(sys.tasks, t, Settled)))
  {
    var x := sys.tasks;
    assert Count(sys.foreground.queue, t) == Waits(x, t, Foreground);
    assert Count(sys.background.queue, t) == Waits(x, t, Background);
    PhaseChange(x, sys.foreground, sys.foreground, t, Settled, Foreground);
    PhaseChange(x, sys.background, sys.background, t, Settled, Background);
  }

  lemma {:induction false} SettleKeeps(sys: System, t: nat)
    requires Inv(sys) && t < |sys.tasks| && sys.tasks[t].phase == Ended
    ensures var sys' := Next(sys, SettleTail(t)); Inv(sys') && Work(sys'.tasks) < Work(sys.tasks)
  {
    WorkAfter(sys.tasks, t, sys.tasks[t].(phase := Settled));
    SettleSessions(sys, t);
    SettleLanes(sys, t);
  }

  /** A deleted tail was the newest task of its session, so the whole session has settled. */
  lemma {:induction false} DeleteKeeps(sys: System, t: nat)
    requires Inv(sys) && Enabled(sys, DeleteTail(t))
    ensures Inv(Next(sys, DeleteTail(t)))
  {
    forall u: nat | u < |sys.tasks| && sys.tasks[u].session == sys.tasks[t].session
      ensures sys.tasks[u].phase == Settled
    {
      if u < t { assert SameSession(sys.tasks, u, t); }
    }
  }

  lemma {:induction false} SignalSessions(x: seq<Task>, y: seq<Task>, t: nat)
    requires Serial(x) && Chain(x) && t < |x| && y == x[t := x[t].(aborted := true)]
    ensures Serial(y) && Chain(y)
  {
    assert Serial(y) by {
      forall a: nat, b: nat | a < b && SameSession(y, a, b) && y[b].phase != Chained ensures y[a].phase == Settled {
        assert SameSession(x, a, b);
      }
    }
    assert Chain(y) by {
      forall b: nat | b < |y| && y[b].predecessor.Some?
        ensures y[b].predecessor.value < b && SameSession(y, y[b].predecessor.value, b)
      {
        assert SameSession(x, x[b].predecessor.value, b);
      }
      forall a: nat, b: nat | a < b && SameSession(y, a, b)
        ensures match y[b].predecessor case None => y[a].phase == Settled case Some(p) => a <= p
      {
        assert SameSession(x, a, b);
      }
    }
  }

  lemma {:induction false} SignalLane(x: seq<Task>, y: seq<Task>, t: nat, s: Semaphore, lane: Lane)
    requires LaneOk(x, s, lane) && t < |x| && y == x[t := x[t].(aborted := true)]
    ensures LaneOk(y, s, lane)
  {
    SlotsAfter(x, t, y[t], lane);
    forall i: int ensures Count(s.queue, i) == Waits(y, i, lane) { assert Count(s.queue, i) == Waits(x, i, lane); }
  }

  lemma {:induction false} SignalKeeps(sys: System, t: nat)
    requires Inv(sys) && t < |sys.tasks|
    ensures var sys' := Next(sys, SignalAbort(t)); Inv(sys') && Work(sys'.tasks) == Work(sys.tasks)
  {
    var x, y := sys.tasks, sys.tasks[t := sys.tasks[t].(aborted := true)];
    SignalSessions(x, y, t);
    SignalLane(x, y, t, sys.foreground, Foreground);
    SignalLane(x, y, t, sys.background, Background);
    WorkAfter(x, t, y[t]);
  }

  lemma {:induction false} BeginDrainKeeps(sys: System)
    requires Inv(sys)
    ensures var sys' := Next(sys, BeginDrain); Inv(sys') && Work(sys'.tasks) <= Work(sys.tasks)
  {
    var sys1 := Apply(sys, Foreground, Pause(sys.foreground));
    PauseOk(sys.tasks, sys.foreground, Foreground, sys.background);
    PauseOk(sys1.tasks, sys.background, Background, sys1.foreground);
    ShapeRefl(sys.tasks);
    ShapeRefl(sys1.tasks);
    ShapeTransitive(sys.tasks, sys1.tasks, Next(sys, BeginDrain).tasks);
    ShapeKeepsSessions(sys, Next(sys, BeginDrain));
    ShapeWork(sys.tasks, Next(sys, BeginDrain).tasks);
  }

  lemma {:induction false} ShapeRefl(tasks: seq<Task>)
    ensures SameShape(tasks, tasks)
  {
  }

  /** Nobody is queued while draining, so a resume wakes nobody. */
  lemma {:induction false} EndDrainKeeps(sys: System)
    requires Inv(sys)
    ensures var sys' := Next(sys, EndDrain); Inv(sys') && sys'.tasks == sys.tasks
  {
    var aborted := AbortedTasks(sys.tasks);
    AtMostOneWakeup(sys.foreground, 0, aborted);
    AtMostOneWakeup(sys.background, 0, aborted);
    var sys' := Next(sys, EndDrain);
    assert sys'.tasks == sys.tasks;
    ShapeRefl(sys.tasks);
    ShapeKeepsSessions(sys, sys');
  }

  // ---------------------------------------------------------------------
  // Progress
  // ---------------------------------------------------------------------

  /** Remaining work of all tasks. */
  function Work(tasks: seq<Task>): nat {
    if tasks == [] then 0 else Work(tasks[..|tasks| - 1]) + Rank(tasks[|tasks| - 1].phase)
  }

  lemma {:induction false} WorkAfter(tasks: seq<Task>, i: nat, x: Task)
    requires i < |tasks|
    ensures Work(tasks[i := x]) == Work(tasks) - Rank(tasks[i].phase) + Rank(x.phase)
  {
    var n := |tasks| - 1;
    if i < n {
      WorkAfter(tasks[..n], i, x);
      assert tasks[i := x][..n] == tasks[..n][i := x];
    } else {
      assert tasks[i := x][..n] == tasks[..n];
    }
  }

  lemma {:induction false} ShapeWork(a: seq<Task>, b: seq<Task>)
    requires SameShape(a, b)
    ensures Work(b) <= Work(a)
  {
    if a != [] {
      var n := |a| - 1;
      forall i | 0 <= i < n ensures Alike(a[..n][i], b[..n][i]) { assert Alike(a[i], b[i]); }
      ShapeWork(a[..n], b[..n]);
      assert Alike(a[n], b[n]);
    }
  }

  /** Every move keeps the invariant. Apart from submissions no move adds work, and a task that
      starts, finishes, is aborted in the queue or settles takes some away. */
  lemma {:induction false} MoveKeeps(sys: System, m: Move)
    requires Inv(sys)
    ensures Inv(Next(sys, m))
    ensures !m.Submit? ==> Work(Next(sys, m).tasks) <= Work(sys.tasks)
    ensures Enabled(sys, m) && (m.StartTask? || m.FinishTask? || m.AbortQueued? || m.SettleTail?) ==>
      Work(Next(sys, m).tasks) < Work(sys.tasks)
  {
    if Enabled(sys, m) {
      match m {
        case Submit(session, lane) => SubmitKeeps(sys, session, lane);
        case StartTask(t) => StartKeeps(sys, t);
        case FinishTask(t) => var sys' := FinishKeeps(sys, t);
        case SignalAbort(t) => SignalKeeps(sys, t);
        case AbortQueued(t) => var sys' := AbortKeeps(sys, t);
        case SettleTail(t) => SettleKeeps(sys, t);
        case DeleteTail(t) => DeleteKeeps(sys, t);
        case BeginDrain => BeginDrainKeeps(sys);
        case EndDrain => EndDrainKeeps(sys);
      }
    }
  }

  /** Every reachable state satisfies the invariant. */
  lemma {:induction false} Reachable(maximum: nat, moves: seq<Move>)
    requires maximum >= 2
    ensures Inv(RunAll(Initial(maximum), moves))
  {
    if moves != [] {
      var past := moves[..|moves| - 1];
      Reachable(maximum, past);
      MoveKeeps(RunAll(Initial(maximum), past), moves[|moves| - 1]);
    }
  }

  /** In every reachable state the tasks of one session run one at a time in submission order, and
      exactly the running tasks hold slots, within the capacity of their lane. */
  lemma {:induction false} SessionsAreSerial(maximum: nat, moves: seq<Move>, a: nat, b: nat)
    requires maximum >= 2
    requires var tasks := RunAll(Initial(maximum), moves).tasks; a < b < |tasks| && tasks[a].session == tasks[b].session
    ensures var sys := RunAll(Initial(maximum), moves);
      && (sys.tasks[b].phase != Chained ==> sys.tasks[a].phase == Settled)
      && (sys.tasks[a].phase != Settled ==> sys.tasks[b].phase == Chained)
      && SlotsHeld(sys.tasks, Foreground) == sys.foreground.active <= sys.foreground.capacity
      && SlotsHeld(sys.tasks, Background) == sys.background.active <= sys.background.capacity
  {
    Reachable(maximum, moves);
    var sys := RunAll(Initial(maximum), moves);
    assert SameSession(sys.tasks, a, b);
  }

  /** The first task that has not settled. */
  function FirstUnsettled(tasks: seq<Task>): (i: nat)
    ensures i <= |tasks|
    ensures forall k :: 0 <= k < i ==> tasks[k].phase == Settled
    ensures i < |tasks| ==> tasks[i].phase != Settled
  {
    if tasks == [] || tasks[0].phase != Settled then 0
    else
      var i := FirstUnsettled(tasks[1..]);
      assert forall k :: 0 < k <= i ==> tasks[k] == tasks[1..][k - 1];
      1 + i
  }

  /** Some task holds a slot. */
  lemma {:induction false} SomeoneRuns(tasks: seq<Task>, lane: Lane) returns (t: nat)
    requires SlotsHeld(tasks, lane) >= 1
    ensures t < |tasks| && tasks[t].phase == Running && tasks[t].lane == lane
  {
    var n := |tasks| - 1;
    if Slot(tasks[n], lane) == 1 { t := n; } else { t := SomeoneRuns(tasks[..n], lane); }
  }

  /** Deadlock freedom: while a task is unfinished, some task is running or can move by itself.
      Together with `MoveKeeps` this bounds every run that submits nothing new by `Work`. */
  lemma {:induction false} NeverStuck(maximum: nat, moves: seq<Move>) returns (m: Move)
    requires maximum >= 2
    requires exists t: nat ::
      t < |RunAll(Initial(maximum), moves).tasks| && RunAll(Initial(maximum), moves).tasks[t].phase != Settled
    ensures m.StartTask? || m.FinishTask? || m.SettleTail?
    ensures Enabled(RunAll(Initial(maximum), moves), m)
    ensures var sys := RunAll(Initial(maximum), moves); Work(Next(sys, m).tasks) < Work(sys.tasks)
  {
    Reachable(maximum, moves);
    var sys := RunAll(Initial(maximum), moves);
    var t := FirstUnsettled(sys.tasks);
    var task := sys.tasks[t];
    match task.phase {
      case Chained => m := StartTask(t);
      case Queued =>
        var s := SemOf(sys, task.lane);
        assert Count(s.queue, t) == Waits(sys.tasks, t, task.lane);
        var r := SomeoneRuns(sys.tasks, task.lane);
        m := FinishTask(r);
      case Running => m := FinishTask(t);
      case Ended => m := SettleTail(t);
    }
    MoveKeeps(sys, m);
  }

  // ---------------------------------------------------------------------
  // What a submitter can rely on
  // ---------------------------------------------------------------------

  datatype Submission = Submission(session: string, lane: Lane)

  /** The submissions of a run, in order. */
  function Submissions(moves: seq<Move>): seq<Submission> {
    if moves == [] then []
    else Submissions(moves[..|moves| - 1]) + Submitted(moves[|moves| - 1])
  }

  function Submitted(m: Move): seq<Submission> {
    if m.Submit? then [Submission(m.session, m.lane)] else []
  }

  function Identity(t: Task): Submission {
    Submission(t.session, t.lane)
  }

  lemma {:induction false} DeliverIdentity(tasks: seq<Task>, e: seq<Effect>, i: nat)
    requires i < |tasks|
    ensures Identity(Deliver(tasks, e)[i]) == Identity(tasks[i])
    decreases |e|
  {
    if e != [] {
      DeliverIdentity(SetPhase(tasks, e[0].ticket, if e[0].Granted? then Running else Ended), e[1..], i);
    }
  }

  /** A move leaves every task what it was submitted as, and only a submission adds one. */
  lemma {:induction false} MoveIdentity(sys: System, m: Move, i: nat)
    requires i < |sys.tasks|
    ensures |Next(sys, m).tasks| == |sys.tasks| + if m.Submit? then 1 else 0
    ensures Identity(Next(sys, m).tasks[i]) == Identity(sys.tasks[i])
  {
    var aborted := AbortedTasks(sys.tasks);
    if Enabled(sys, m) {
      match m
      case StartTask(t) =>
        DeliverIdentity(SetPhase(sys.tasks, t, Queued), Acquire(SemOf(sys, sys.tasks[t].lane), t, aborted).1, i);
      case FinishTask(t) =>
        DeliverIdentity(SetPhase(sys.tasks, t, Ended), Release(SemOf(sys, sys.tasks[t].lane), aborted).1, i);
      case AbortQueued(t) => DeliverIdentity(sys.tasks, Abort(SemOf(sys, sys.tasks[t].lane), t, aborted).1, i);
      case BeginDrain =>
        DeliverIdentity(sys.tasks, Pause(sys.foreground).1, i);
        DeliverIdentity(Deliver(sys.tasks, Pause(sys.foreground).1), Pause(sys.background).1, i);
      case EndDrain =>
        DeliverIdentity(sys.tasks, Resume(sys.foreground, aborted).1, i);
        DeliverIdentity(Deliver(sys.tasks, Resume(sys.foreground, aborted).1), Resume(sys.background, aborted).1, i);
      case _ =>
    }
  }

  lemma {:induction false} SubmitIdentity(sys: System, m: Move)
    requires m.Submit?
    ensures |Next(sys, m).tasks| == |sys.tasks| + 1
    ensures Identity(Next(sys, m).tasks[|sys.tasks|]) == Submission(m.session, m.lane)
  {
  }

  lemma {:induction false} TaskCount(sys: System, m: Move)
    ensures |Next(sys, m).tasks| == |sys.tasks| + if m.Submit? then 1 else 0
  {
    if sys.tasks != [] { MoveIdentity(sys, m, 0); }
  }

  /** In every run the n-th task is the n-th submission: its session and its lane never change. */
  lemma {:induction false} TasksAreSubmissions(maximum: nat, moves: seq<Move>, i: nat)
    requires maximum >= 2
    ensures |RunAll(Initial(maximum), moves).tasks| == |Submissions(moves)|
    ensures i < |Submissions(moves)| ==> Identity(RunAll(Initial(maximum), moves).tasks[i]) == Submissions(moves)[i]
  {
    if moves != [] {
      var past, m := moves[..|moves| - 1], moves[|moves| - 1];
      var sys := RunAll(Initial(maximum), past);
      TasksAreSubmissions(maximum, past, i);
      TaskCount(sys, m);
      if i < |sys.tasks| { MoveIdentity(sys, m, i); } else if m.Submit? { SubmitIdentity(sys, m); }
    }
  }

  // ---- what settlements leave alone ----

  lemma {:induction false} DeliverSignals(tasks: seq<Task>, e: seq<Effect>, i: nat)
    requires i < |tasks|
    ensures Deliver(tasks, e)[i].aborted == tasks[i].aborted
    decreases |e|
  {
    if e != [] {
      DeliverSignals(SetPhase(tasks, e[0].ticket, if e[0].Granted? then Running else Ended), e[1..], i);
    }
  }

  /** Once the newest task of a session has settled its tail is forgotten, and only then. */
  lemma {:induction false} TailIsForgotten(sys: System, t: nat)
    requires Inv(sys) && t < |sys.tasks|
    ensures Enabled(sys, DeleteTail(t)) <==>
      && sys.tasks[t].phase == Settled && sys.tasks[t].session in sys.tails
      && forall u: nat :: u < |sys.tasks| && sys.tasks[u].session == sys.tasks[t].session ==> u <= t
    ensures Enabled(sys, DeleteTail(t)) ==> Next(sys, DeleteTail(t)).tails == sys.tails - {sys.tasks[t].session}
  {
    if sys.tasks[t].session in sys.tails {
      var last := sys.tails[sys.tasks[t].session];
      assert sys.tasks[last].session == sys.tasks[t].session;
    }
  }
}
