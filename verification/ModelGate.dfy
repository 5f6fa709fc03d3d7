/**
 `PrioritizedModelGate`: one boolean per lane instead of counters, no pausing,
 and an abort listener that does not pump. It is held to the same reference:
 each lane is an independent FIFO semaphore of capacity one.
 */
module ModelGate {
  import opened FifoSemaphore
  import opened TaskLimiter

  class PrioritizedModelGate {
    var activeForeground: bool
    var activeBackground: bool
    var waiting: seq<Waiter>
    ghost var foregroundLine: seq<Ticket>
    ghost var backgroundLine: seq<Ticket>

    ghost function View(lane: Lane): Semaphore
      reads this
    {
      if lane == Foreground then Semaphore(1, if activeForeground then 1 else 0, foregroundLine, true)
      else Semaphore(1, if activeBackground then 1 else 0, backgroundLine, true)
    }

    ghost predicate Consistent()
      reads this
    {
      waiting == Tagged(Foreground, foregroundLine) + Tagged(Background, backgroundLine)
    }

    ghost predicate Valid()
      reads this
    {
      Consistent() && View(Foreground).Valid() && View(Background).Valid()
    }

    constructor ()
      ensures Valid()
      ensures forall lane :: View(lane) == Semaphore(1, 0, [], true)
    {
      activeForeground, activeBackground, waiting := false, false, [];
      foregroundLine, backgroundLine := [], [];
    }

    function CanRun(lane: Lane): bool
      reads this
    {
      if lane == Background then !activeBackground else !activeForeground
    }

    method Reserve(lane: Lane)
      modifies this`activeForeground, this`activeBackground
      ensures activeForeground == (old(activeForeground) || lane == Foreground)
      ensures activeBackground == (old(activeBackground) || lane == Background)
    {
      if lane == Background { activeBackground := true; } else { activeForeground := true; }
    }

    method Acquire(lane: Lane, ticket: Ticket, aborted: set<Ticket>) returns (notices: seq<Notice>)
      requires Valid()
      modifies this
      ensures Valid()
      ensures var r := FifoSemaphore.Acquire(old(View(lane)), ticket, aborted);
        View(lane) == r.0 && notices == Notices(lane, r.1)
      ensures View(Other(lane)) == old(View(Other(lane)))
    {
      NoticeCons(lane, Aborted(ticket), []);
      NoticeCons(lane, Granted(ticket), []);
      notices := [];
      if ticket in aborted {
        notices := [Notice(lane, Aborted(ticket))];
      } else if CanRun(lane) {
        Reserve(lane);
        notices := [Notice(lane, Granted(ticket))];
      } else {
        Join(lane, ticket);
      }
    }

    method Join(lane: Lane, ticket: Ticket)
      requires Consistent()
      modifies this`waiting, this`foregroundLine, this`backgroundLine
      ensures Consistent()
      ensures foregroundLine == old(foregroundLine) + if lane == Foreground then [ticket] else []
      ensures backgroundLine == old(backgroundLine) + if lane == Background then [ticket] else []
    {
      Insertion(foregroundLine, backgroundLine, ticket);
      if lane == Foreground {
        var firstBackground := FirstBackground(waiting);
        if firstBackground < |waiting| {
          waiting := waiting[..firstBackground] + [Waiter(lane, ticket)] + waiting[firstBackground..];
        } else {
          waiting := waiting + [Waiter(lane, ticket)];
        }
        foregroundLine := foregroundLine + [ticket];
      } else {
        waiting := waiting + [Waiter(lane, ticket)];
        backgroundLine := backgroundLine + [ticket];
      }
    }

    /** The abort listener: it only leaves the list, and that is all the reference would do. */
    method OnAbort(lane: Lane, ticket: Ticket, ghost aborted: set<Ticket>) returns (notices: seq<Notice>)
      requires Valid() && ticket in View(lane).queue
      modifies this
      ensures Valid()
      ensures var r := FifoSemaphore.Abort(old(View(lane)), ticket, aborted);
        View(lane) == r.0 && notices == Notices(lane, r.1)
      ensures View(Other(lane)) == old(View(Other(lane)))
    {
      AbortSettlesOne(View(lane), ticket, aborted);
      NoticeCons(lane, Aborted(ticket), []);
      var index := Position(waiting, Waiter(lane, ticket));
      Removal(foregroundLine, backgroundLine, Waiter(lane, ticket));
      waiting := Spliced(waiting, index);
      if lane == Foreground { foregroundLine := Without(foregroundLine, ticket); }
      else { backgroundLine := Without(backgroundLine, ticket); }
      notices := [Notice(lane, Aborted(ticket))];
    }

    method WakeOne(aborted: Lane -> set<Ticket>) returns (settled: bool, notice: Notice)
      requires Consistent()
      modifies this
      ensures Consistent()
      ensures settled == (old(View(Foreground)).Runnable() || old(View(Background)).Runnable())
      ensures settled ==> |waiting| < old(|waiting|)
      ensures
        if old(View(Foreground)).Runnable() then
          var p := Pop(old(View(Foreground)), aborted(Foreground));
          View(Foreground) == p.0 && notice == Notice(Foreground, p.1) && View(Background) == old(View(Background))
        else if old(View(Background)).Runnable() then
          var p := Pop(old(View(Background)), aborted(Background));
          View(Background) == p.0 && notice == Notice(Background, p.1) && View(Foreground) == old(View(Foreground))
        else View(Foreground) == old(View(Foreground)) && View(Background) == old(View(Background))
    {
      var index := FirstRunnable(waiting, CanRun(Foreground), CanRun(Background));
      RunnableInOrder(foregroundLine, backgroundLine, CanRun(Foreground), CanRun(Background));
      settled, notice := index < |waiting|, Notice(Foreground, Aborted(0));
      if settled {
        var waiter := waiting[index];
        waiting := Spliced(waiting, index);
        if waiter.lane == Foreground { foregroundLine := foregroundLine[1..]; }
        else { backgroundLine := backgroundLine[1..]; }
        if waiter.ticket in aborted(waiter.lane) {
          notice := Notice(waiter.lane, Aborted(waiter.ticket));
        } else {
          Reserve(waiter.lane);
          notice := Notice(waiter.lane, Granted(waiter.ticket));
        }
      }
    }

    /** The release function handed to a caller. Nothing stops it from running more than once: see `GateRuns`. */
    method Release(lane: Lane, aborted: Lane -> set<Ticket>) returns (notices: seq<Notice>)
      requires Valid()
      modifies this
      ensures Valid()
      ensures var r := FifoSemaphore.Release(old(View(lane)), aborted(lane));
        View(lane) == r.0 && notices == Notices(lane, r.1)
      ensures View(Other(lane)) == old(View(Other(lane)))
    {
      ghost var others := View(Other(lane));
      if lane == Background { activeBackground := false; } else { activeForeground := false; }
      PumpSaturates(View(lane), aborted(lane));
      assert Pump(others, aborted(Other(lane))) == (others, []);
      notices := WakeAll(aborted);
    }

    /** The loop of `release`: repeat until nobody is runnable. */
    method WakeAll(aborted: Lane -> set<Ticket>) returns (notices: seq<Notice>)
      requires Consistent()
      modifies this
      ensures Consistent()
      ensures View(Foreground) == Pump(old(View(Foreground)), aborted(Foreground)).0
      ensures View(Background) == Pump(old(View(Background)), aborted(Background)).0
      ensures notices == Notices(Foreground, Pump(old(View(Foreground)), aborted(Foreground)).1)
                       + Notices(Background, Pump(old(View(Background)), aborted(Background)).1)
    {
      ghost var f0, b0 := View(Foreground), View(Background);
      notices := [];
      var settled := true;
      while settled
        invariant Consistent()
        invariant !settled ==> !View(Foreground).Runnable() && !View(Background).Runnable()
        invariant Drained(f0, b0, View(Foreground), View(Background), aborted, notices)
        decreases |waiting|, settled
      {
        ghost var f, b, n := View(Foreground), View(Background), notices;
        var notice;
        settled, notice := WakeOne(aborted);
        if settled {
          notices := notices + [notice];
          DrainedStep(f0, b0, f, b, aborted, n);
        }
      }
    }
  }
}
