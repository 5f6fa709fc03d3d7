/**
 What happens to one task of a session: whose signal counts as aborted, and which
 phase a move leaves each task in.
 */
module TailLaws {
  import opened Options
  import opened FifoSemaphore
  import opened TaskLimiter
  import opened SessionTails

  // ---------------------------------------------------------------------
  // Signals
  // ---------------------------------------------------------------------

  function MoveAt(moves: seq<Move>, k: nat): Move
    requires k < |moves|
  {
    moves[k]
  }

  /** The signal of the i-th submitted task was aborted, after its submission. */
  ghost predicate SignalSent(moves: seq<Move>, i: nat) {
    exists k: nat :: k < |moves| && MoveAt(moves, k) == SignalAbort(i) && i < |Submissions(moves[..k])|
  }

  lemma {:induction false} SignalNext(past: seq<Move>, m: Move, i: nat)
    ensures SignalSent(past + [m], i) <==> SignalSent(past, i) || (m == SignalAbort(i) && i < |Submissions(past)|)
  {
    var all := past + [m];
    assert all[..|past|] == past && MoveAt(all, |past|) == m;
    if SignalSent(past, i) {
      var k: nat :| k < |past| && MoveAt(past, k) == SignalAbort(i) && i < |Submissions(past[..k])|;
      assert MoveAt(all, k) == SignalAbort(i) && all[..k] == past[..k];
    }
    if SignalSent(all, i) {
      var k: nat :| k < |all| && MoveAt(all, k) == SignalAbort(i) && i < |Submissions(all[..k])|;
      if k < |past| { assert MoveAt(past, k) == SignalAbort(i) && all[..k] == past[..k]; }
    }
  }

  /** A move aborts the signal it names and no other. */
  lemma {:induction false} MoveSignals(sys: System, m: Move, i: nat)
    requires i < |sys.tasks| && i < |Next(sys, m).tasks|
    ensures Next(sys, m).tasks[i].aborted == (sys.tasks[i].aborted || m == SignalAbort(i))
  {
    var aborted := AbortedTasks(sys.tasks);
    if SessionTails.Enabled(sys, m) {
      match m
      case StartTask(t) =>
        DeliverSignals(SetPhase(sys.tasks, t, Queued), Acquire(SemOf(sys, sys.tasks[t].lane), t, aborted).1, i);
      case FinishTask(t) =>
        DeliverSignals(SetPhase(sys.tasks, t, Ended), Release(SemOf(sys, sys.tasks[t].lane), aborted).1, i);
      case AbortQueued(t) => DeliverSignals(sys.tasks, Abort(SemOf(sys, sys.tasks[t].lane), t, aborted).1, i);
      case BeginDrain =>
        DeliverSignals(sys.tasks, Pause(sys.foreground).1, i);
        DeliverSignals(Deliver(sys.tasks, Pause(sys.foreground).1), Pause(sys.background).1, i);
      case EndDrain =>
        DeliverSignals(sys.tasks, Resume(sys.foreground, aborted).1, i);
        DeliverSignals(Deliver(sys.tasks, Resume(sys.foreground, aborted).1), Resume(sys.background, aborted).1, i);
      case _ =>
    }
  }

  /** In every run a task counts as aborted iff its signal was aborted after its submission. */
  lemma {:induction false} AbortedIff(maximum: nat, moves: seq<Move>, i: nat)
    requires maximum >= 2 && i < |RunAll(Initial(maximum), moves).tasks|
    ensures RunAll(Initial(maximum), moves).tasks[i].aborted <==> SignalSent(moves, i)
  {
    TasksAreSubmissions(maximum, moves, i);
    if moves != [] {
      var past, m := moves[..|moves| - 1], moves[|moves| - 1];
      var sys := RunAll(Initial(maximum), past);
      assert past + [m] == moves;
      SignalNext(past, m, i);
      TaskCount(sys, m);
      TasksAreSubmissions(maximum, past, i);
      if i < |sys.tasks| {
        AbortedIff(maximum, past, i);
        MoveSignals(sys, m, i);
      } else {
        LateSignals(maximum, past, i);
      }
    }
  }

  /** Before it is submitted no signal of a task counts. */
  lemma {:induction false} LateSignals(maximum: nat, moves: seq<Move>, i: nat)
    requires maximum >= 2 && i >= |Submissions(moves)|
    ensures !SignalSent(moves, i)
  {
    forall k: nat | k < |moves| ensures |Submissions(moves[..k])| <= |Submissions(moves)| { MoreSubmissions(moves, k); }
  }

  lemma {:induction false} MoreSubmissions(moves: seq<Move>, k: nat)
    requires k <= |moves|
    ensures |Submissions(moves[..k])| <= |Submissions(moves)|
  {
    if k < |moves| {
      MoreSubmissions(moves[..|moves| - 1], k);
      assert moves[..|moves| - 1][..k] == moves[..k];
    } else {
      assert moves[..k] == moves;
    }
  }

  // ---------------------------------------------------------------------
  // Phases
  // ---------------------------------------------------------------------

  /** The settlements of these effects leave a task in phase `p` in phase `p'`. */
  predicate Settles(e: seq<Effect>, i: nat, p: Phase, p': Phase) {
    || (p' == p && Granted(i) !in e && Aborted(i) !in e && Paused(i) !in e)
    || (p' == Running && Granted(i) in e)
    || (p' == Ended && (Aborted(i) in e || Paused(i) in e))
  }

  lemma {:induction false} DeliverSettles(tasks: seq<Task>, e: seq<Effect>, i: nat)
    requires i < |tasks|
    ensures Settles(e, i, tasks[i].phase, Deliver(tasks, e)[i].phase)
    decreases |e|
  {
    if e != [] {
      assert e == [e[0]] + e[1..];
      DeliverSettles(SetPhase(tasks, e[0].ticket, if e[0].Granted? then Running else Ended), e[1..], i);
    }
  }

  /** A pump settles waiters only: it grants to those whose signal is not aborted and rejects the others. */
  lemma {:induction false} PumpNames(s: Semaphore, aborted: set<Ticket>, t: Ticket)
    ensures Granted(t) in Pump(s, aborted).1 ==> t in s.queue && t !in aborted
    ensures Aborted(t) in Pump(s, aborted).1 ==> t in s.queue && t in aborted
    ensures Paused(t) !in Pump(s, aborted).1
    decreases |s.queue|
  {
    if s.Runnable() {
      var p := Pop(s, aborted);
      PumpNames(p.0, aborted, t);
      assert Pump(s, aborted).1 == [p.1] + Pump(p.0, aborted).1;
    }
  }

  lemma {:induction false} PausedNames(q: seq<Ticket>, t: Ticket)
    ensures Paused(t) in PausedAll(q) <==> t in q
    ensures Granted(t) !in PausedAll(q) && Aborted(t) !in PausedAll(q)
  {
    if q != [] {
      PausedNames(q[1..], t);
      assert q == [q[0]] + q[1..];
    }
  }

  lemma {:induction false} CountedIff(q: seq<Ticket>, t: Ticket)
    ensures t in q <==> Count(q, t) > 0
  {
    if q != [] {
      CountedIff(q[1..], t);
      assert q == [q[0]] + q[1..];
    }
  }

  /** The line of a lane holds exactly its queued tasks. */
  lemma {:induction false} WaitsIff(sys: System, lane: Lane, i: nat)
    requires Inv(sys) && i < |sys.tasks|
    ensures i in SemOf(sys, lane).queue <==> sys.tasks[i].phase == Queued && sys.tasks[i].lane == lane
  {
    var s := SemOf(sys, lane);
    assert Count(s.queue, i) == Waits(sys.tasks, i, lane);
    CountedIff(s.queue, i);
  }

  lemma {:induction false} WithoutNames(q: seq<Ticket>, u: Ticket, t: Ticket)
    ensures t in Without(q, u) ==> t in q
  {
  }

  /** Where a move that settles waiters may leave one of them. */
  predicate Served(task: Task, p': Phase) {
    p' == Queued || p' == if task.aborted then Ended else Running
  }

  lemma {:induction false} FinishPhase(sys: System, t: nat, i: nat)
    requires Inv(sys) && SessionTails.Enabled(sys, FinishTask(t)) && i < |sys.tasks|
    ensures var p' := Next(sys, FinishTask(t)).tasks[i].phase;
      if i == t then p' == Ended
      else if sys.tasks[i].phase == Queued && sys.tasks[i].lane == sys.tasks[t].lane then Served(sys.tasks[i], p')
      else p' == sys.tasks[i].phase
  {
    var lane, aborted := sys.tasks[t].lane, AbortedTasks(sys.tasks);
    var s := SemOf(sys, lane);
    DeliverSettles(SetPhase(sys.tasks, t, Ended), Release(s, aborted).1, i);
    PumpNames(Freed(s), aborted, i);
    WaitsIff(sys, lane, i);
  }

  lemma {:induction false} AbortPhase(sys: System, t: nat, i: nat)
    requires Inv(sys) && SessionTails.Enabled(sys, AbortQueued(t)) && i < |sys.tasks|
    ensures var p' := Next(sys, AbortQueued(t)).tasks[i].phase;
      if i == t then p' == Ended else p' == sys.tasks[i].phase
  {
    var lane, aborted := sys.tasks[t].lane, AbortedTasks(sys.tasks);
    var s := SemOf(sys, lane);
    WaitsIff(sys, lane, t);
    assert s.Valid();
    var left := s.(queue := Without(s.queue, t));
    assert Pump(left, aborted) == (left, []);
    DeliverSettles(sys.tasks, [Aborted(t)] + [], i);
  }

  lemma {:induction false} StartPhase(sys: System, t: nat, i: nat)
    requires Inv(sys) && SessionTails.Enabled(sys, StartTask(t)) && i < |sys.tasks|
    ensures var s := SemOf(sys, sys.tasks[t].lane); var p' := Next(sys, StartTask(t)).tasks[i].phase;
      if i != t then p' == sys.tasks[i].phase
      else p' == if sys.tasks[t].aborted || !s.open then Ended
                 else if s.active < s.capacity then Running else Queued
  {
    var lane, aborted := sys.tasks[t].lane, AbortedTasks(sys.tasks);
    assert t in aborted <==> sys.tasks[t].aborted;
    DeliverSettles(SetPhase(sys.tasks, t, Queued), Acquire(SemOf(sys, lane), t, aborted).1, i);
  }

  lemma {:induction false} DrainPhase(sys: System, i: nat)
    requires Inv(sys) && i < |sys.tasks|
    ensures Next(sys, BeginDrain).tasks[i].phase ==
      if sys.tasks[i].phase == Queued then Ended else sys.tasks[i].phase
  {
    var f, b := sys.foreground, sys.background;
    WaitsIff(sys, Foreground, i);
    WaitsIff(sys, Background, i);
    PausedNames(f.queue, i);
    PausedNames(b.queue, i);
    assert f.Valid() && b.Valid();
    DeliverSettles(sys.tasks, Pause(f).1, i);
    DeliverSettles(Deliver(sys.tasks, Pause(f).1), Pause(b).1, i);
  }

  lemma {:induction false} EndDrainPhase(sys: System, i: nat)
    requires Inv(sys) && i < |sys.tasks|
    ensures Next(sys, EndDrain).tasks[i].phase == sys.tasks[i].phase
  {
    var f, b, aborted := sys.foreground, sys.background, AbortedTasks(sys.tasks);
    assert f.Valid() && b.Valid();
    assert Resume(f, aborted).1 == [] && Resume(b, aborted).1 == [];
  }

  /** What every move does to every task: a task that starts is ended at once if its signal is aborted or a drain is
      on, runs if its lane has a unit, and queues otherwise; a finished or aborted one has ended; an ended one
      settles; a drain ends the queued ones; a finish may let queued tasks of its lane run, or end those whose signal
      is aborted; and nothing else changes. */
  lemma {:induction false} PhaseLaw(sys: System, m: Move, i: nat)
    requires Inv(sys) && SessionTails.Enabled(sys, m) && i < |sys.tasks| && i < |Next(sys, m).tasks|
    ensures var task, p' := sys.tasks[i], Next(sys, m).tasks[i].phase;
      var s := SemOf(sys, task.lane);
      if m == StartTask(i) then
        p' == (if task.aborted || !s.open then Ended else if s.active < s.capacity then Running else Queued)
      else if m == FinishTask(i) || m == AbortQueued(i) then p' == Ended
      else if m == SettleTail(i) then p' == Settled
      else if m == BeginDrain && task.phase == Queued then p' == Ended
      else if m.FinishTask? && task.phase == Queued && task.lane == sys.tasks[m.t].lane then Served(task, p')
      else p' == task.phase
  {
    match m
    case StartTask(t) => StartPhase(sys, t, i);
    case FinishTask(t) => FinishPhase(sys, t, i);
    case AbortQueued(t) => AbortPhase(sys, t, i);
    case BeginDrain => DrainPhase(sys, i);
    case EndDrain => EndDrainPhase(sys, i);
    case _ =>
  }

  /** In every run, a task whose signal was aborted never starts to run. */
  lemma {:induction false} OnlyUnabortedStart(maximum: nat, moves: seq<Move>, m: Move, i: nat)
    requires maximum >= 2 && i < |RunAll(Initial(maximum), moves).tasks| && SignalSent(moves, i)
    requires RunAll(Initial(maximum), moves).tasks[i].phase != Running
    ensures i < |Next(RunAll(Initial(maximum), moves), m).tasks|
    ensures Next(RunAll(Initial(maximum), moves), m).tasks[i].phase != Running
  {
    var sys := RunAll(Initial(maximum), moves);
    Reachable(maximum, moves);
    AbortedIff(maximum, moves, i);
    TaskCount(sys, m);
    if SessionTails.Enabled(sys, m) { PhaseLaw(sys, m, i); }
  }
}
