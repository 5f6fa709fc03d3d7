/**
 `TaskConcurrencyLimiter` of the executor: two lanes that share one
 priority-ordered waiting list and one total counter. Every method is proved to
 act on each lane exactly as an independent FIFO semaphore would, so neither
 lane can block, delay or wake the other.
 */
module TaskLimiter {
  import opened FifoSemaphore

  datatype Lane = Foreground | Background

  datatype Waiter = Waiter(lane: Lane, ticket: Ticket)

  datatype Notice = Notice(lane: Lane, effect: Effect)

  function Tagged(lane: Lane, q: seq<Ticket>): (w: seq<Waiter>)
    ensures |w| == |q|
  {
    if q == [] then [] else [Waiter(lane, q[0])] + Tagged(lane, q[1..])
  }

  function Notices(lane: Lane, e: seq<Effect>): seq<Notice> {
    if e == [] then [] else [Notice(lane, e[0])] + Notices(lane, e[1..])
  }

  /** `findIndex(item => item.executionClass === 'background')`; the length when there is none. */
  function FirstBackground(w: seq<Waiter>): (i: nat)
    ensures i <= |w|
  {
    if w == [] || w[0].lane == Background then 0 else 1 + FirstBackground(w[1..])
  }

  /** `findIndex(waiter => this.canRun(waiter.executionClass))`; the length when there is none. */
  function FirstRunnable(w: seq<Waiter>, canForeground: bool, canBackground: bool): (i: nat)
    ensures i <= |w|
  {
    if w == [] || (if w[0].lane == Foreground then canForeground else canBackground) then 0
    else 1 + FirstRunnable(w[1..], canForeground, canBackground)
  }

  /** `indexOf`; the length when the waiter is not in the list. */
  function Position(w: seq<Waiter>, x: Waiter): (i: nat)
    ensures i <= |w|
  {
    if w == [] || w[0] == x then 0 else 1 + Position(w[1..], x)
  }

  /** `Math.max(0, n - 1)` */
  function OneLess(n: nat): nat {
    if n == 0 then 0 else n - 1
  }

  function Spliced(w: seq<Waiter>, i: nat): seq<Waiter>
    requires i < |w|
  {
    w[..i] + w[i + 1..]
  }

  class TaskConcurrencyLimiter {
    const maximum: nat
    const foregroundMaximum: nat
    const backgroundMaximum: nat := 1
    var active: nat
    var activeForeground: nat
    var activeBackground: nat
    var draining: bool
    var waiting: seq<Waiter>
    /** The two lines that `waiting` interleaves: all of the first, then all of the second. */
    ghost var foregroundLine: seq<Ticket>
    ghost var backgroundLine: seq<Ticket>

    /** One lane, seen on its own. */
    ghost function View(lane: Lane): Semaphore
      reads this
    {
      if lane == Foreground then Semaphore(foregroundMaximum, activeForeground, foregroundLine, !draining)
      else Semaphore(backgroundMaximum, activeBackground, backgroundLine, !draining)
    }

    /** The shared representation is consistent. */
    ghost predicate Consistent()
      reads this
    {
      && 2 <= maximum <= 32
      && foregroundMaximum == maximum - 1
      && active == activeForeground + activeBackground
      && activeForeground <= foregroundMaximum
      && activeBackground <= backgroundMaximum
      && waiting == Tagged(Foreground, foregroundLine) + Tagged(Background, backgroundLine)
    }

    ghost predicate Valid()
      reads this
    {
      Consistent() && View(Foreground).Valid() && View(Background).Valid()
    }

    constructor (max: nat)
      requires 2 <= max <= 32
      ensures Valid() && maximum == max
      ensures View(Foreground) == Semaphore(max - 1, 0, [], true)
      ensures View(Background) == Semaphore(1, 0, [], true)
    {
      maximum := max;
      foregroundMaximum := max - 1;
      active, activeForeground, activeBackground := 0, 0, 0;
      draining := false;
      waiting, foregroundLine, backgroundLine := [], [], [];
    }

    function CanRun(lane: Lane): bool
      reads this
    {
      active < maximum &&
      (if lane == Background then activeBackground < backgroundMaximum else activeForeground < foregroundMaximum)
    }

    method Reserve(lane: Lane)
      requires Consistent() && CanRun(lane)
      modifies this`active, this`activeForeground, this`activeBackground
      ensures Consistent()
      ensures View(lane) == old(View(lane)).(active := old(View(lane)).active + 1)
      ensures View(Other(lane)) == old(View(Other(lane)))
    {
      active := active + 1;
      if lane == Background { activeBackground := activeBackground + 1; }
      else { activeForeground := activeForeground + 1; }
    }

    /** The body of the `drain` loop: settle the first runnable waiter in list order, if there is one. */
    method DrainOne(aborted: Lane -> set<Ticket>) returns (settled: bool, notice: Notice)
      requires Consistent() && !draining
      modifies this
      ensures Consistent() && !draining
      ensures settled == (old(View(Foreground)).Runnable() || old(View(Background)).Runnable())
      ensures settled ==> |waiting| < old(|waiting|)
      ensures
        if old(View(Foreground)).Runnable() then
          var p := Pop(old(View(Foreground)), aborted(Foreground));
          View(Foreground) == p.0 && notice == Notice(Foreground, p.1) && View(Background) == old(View(Background))
        else if old(View(Background)).Runnable() then
          var p := Pop(old(View(Background)), aborted(Background));
          View(Background) == p.0 && notice == Notice(Background, p.1) && View(Foreground) == old(View(Foreground))
        else View(Foreground) == old(View(Foreground)) && View(Background) == old(View(Background))
    {
      var index := FirstRunnable(waiting, CanRun(Foreground), CanRun(Background));
      RunnableInOrder(foregroundLine, backgroundLine, CanRun(Foreground), CanRun(Background));
      settled, notice := index < |waiting|, Notice(Foreground, Aborted(0));
      if settled {
        var waiter := waiting[index];
        waiting := Spliced(waiting, index);
        if waiter.lane == Foreground { foregroundLine := foregroundLine[1..]; }
        else { backgroundLine := backgroundLine[1..]; }
        if waiter.ticket in aborted(waiter.lane) {
          notice := Notice(waiter.lane, Aborted(waiter.ticket));
        } else {
          Reserve(waiter.lane);
          notice := Notice(waiter.lane, Granted(waiter.ticket));
        }
      }
    }

    /** The private `drain`: repeat until nobody is runnable. */
    method Drain(aborted: Lane -> set<Ticket>) returns (notices: seq<Notice>)
      requires Consistent()
      modifies this
      ensures Consistent() && draining == old(draining)
      ensures View(Foreground) == Pump(old(View(Foreground)), aborted(Foreground)).0
      ensures View(Background) == Pump(old(View(Background)), aborted(Background)).0
      ensures notices == Notices(Foreground, Pump(old(View(Foreground)), aborted(Foreground)).1)
                       + Notices(Background, Pump(old(View(Background)), aborted(Background)).1)
    {
      notices := [];
      if draining { return; }
      ghost var f0, b0 := View(Foreground), View(Background);
      var settled := true;
      while settled
        invariant Consistent() && !draining
        invariant !settled ==> !View(Foreground).Runnable() && !View(Background).Runnable()
        invariant Drained(f0, b0, View(Foreground), View(Background), aborted, notices)
        decreases |waiting|, settled
      {
        ghost var f, b, n := View(Foreground), View(Background), notices;
        var notice;
        settled, notice := DrainOne(aborted);
        if settled {
          notices := notices + [notice];
          DrainedStep(f0, b0, f, b, aborted, n);
        }
      }
    }

    /** Admit at once, refuse while draining, or join the list: foreground goes before every
        background waiter. An aborted signal throws before anything else. */
    method Acquire(lane: Lane, ticket: Ticket, aborted: set<Ticket>) returns (notices: seq<Notice>)
      requires Valid()
      modifies this
      ensures Valid()
      ensures var r := FifoSemaphore.Acquire(old(View(lane)), ticket, aborted);
        View(lane) == r.0 && notices == Notices(lane, r.1)
      ensures View(Other(lane)) == old(View(Other(lane)))
    {
      NoticeCons(lane, Aborted(ticket), []);
      NoticeCons(lane, Paused(ticket), []);
      NoticeCons(lane, Granted(ticket), []);
      notices := [];
      if ticket in aborted {
        notices := [Notice(lane, Aborted(ticket))];
      } else if draining {
        notices := [Notice(lane, Paused(ticket))];
      } else if CanRun(lane) {
        Reserve(lane);
        notices := [Notice(lane, Granted(ticket))];
      } else {
        Join(lane, ticket);
      }
    }

    /** Insert into the shared list: foreground before every background waiter. */
    method Join(lane: Lane, ticket: Ticket)
      requires Consistent()
      modifies this`waiting, this`foregroundLine, this`backgroundLine
      ensures Consistent()
      ensures View(lane) == old(View(lane)).(queue := old(View(lane)).queue + [ticket])
      ensures View(Other(lane)) == old(View(Other(lane)))
    {
      Insertion(foregroundLine, backgroundLine, ticket);
      var firstBackground := FirstBackground(waiting);
      if lane == Foreground && firstBackground < |waiting| {
        waiting := waiting[..firstBackground] + [Waiter(lane, ticket)] + waiting[firstBackground..];
      } else {
        waiting := waiting + [Waiter(lane, ticket)];
      }
      if lane == Foreground { foregroundLine := foregroundLine + [ticket]; }
      else { backgroundLine := backgroundLine + [ticket]; }
    }

    /** Give a unit back and wake whoever may run now. */
    method Release(lane: Lane, aborted: Lane -> set<Ticket>) returns (notices: seq<Notice>)
      requires Valid()
      requires if lane == Foreground then activeForeground > 0 else activeBackground > 0
      modifies this
      ensures Valid()
      ensures var r := FifoSemaphore.Release(old(View(lane)), aborted(lane));
        View(lane) == r.0 && notices == Notices(lane, r.1)
      ensures View(Other(lane)) == old(View(Other(lane)))
    {
      Free(lane);
      ghost var mid := View(lane);
      notices := Drain(aborted);
      PumpSaturates(mid, aborted(lane));
    }

    /** The counters give one unit back. */
    method Free(lane: Lane)
      requires Consistent()
      requires if lane == Foreground then activeForeground > 0 else activeBackground > 0
      modifies this`active, this`activeForeground, this`activeBackground
      ensures Consistent()
      ensures View(lane) == Freed(old(View(lane))) && View(Other(lane)) == old(View(Other(lane)))
    {
      active := OneLess(active);
      if lane == Background { activeBackground := OneLess(activeBackground); }
      else { activeForeground := OneLess(activeForeground); }
    }

    /** The abort listener of a waiter. */
    method OnAbort(lane: Lane, ticket: Ticket, aborted: Lane -> set<Ticket>) returns (notices: seq<Notice>)
      requires Valid()
      requires ticket in View(lane).queue
      modifies this
      ensures Valid()
      ensures var r := FifoSemaphore.Abort(old(View(lane)), ticket, aborted(lane));
        View(lane) == r.0 && notices == Notices(lane, r.1)
      ensures View(Other(lane)) == old(View(Other(lane)))
    {
      AbortSettlesOne(View(lane), ticket, aborted(lane));
      NoticeCons(lane, Aborted(ticket), []);
      Leave(lane, ticket);
      var rest := Drain(aborted);
      notices := [Notice(lane, Aborted(ticket))] + rest;
    }

    /** Remove one waiter from the shared list. */
    method Leave(lane: Lane, ticket: Ticket)
      requires Consistent() && ticket in View(lane).queue
      modifies this`waiting, this`foregroundLine, this`backgroundLine
      ensures Consistent()
      ensures foregroundLine == if lane == Foreground then Without(old(foregroundLine), ticket) else old(foregroundLine)
      ensures backgroundLine == if lane == Background then Without(old(backgroundLine), ticket) else old(backgroundLine)
    {
      var index := Position(waiting, Waiter(lane, ticket));
      Removal(foregroundLine, backgroundLine, Waiter(lane, ticket));
      if index < |waiting| {
        waiting := Spliced(waiting, index);
        if lane == Foreground { foregroundLine := Without(foregroundLine, ticket); }
        else { backgroundLine := Without(backgroundLine, ticket); }
      }
    }

    /** Stop dispatch: every waiter is sent back to durable queued state. */
    method BeginDrain() returns (notices: seq<Notice>)
      requires Valid()
      modifies this
      ensures Valid() && draining
      ensures View(Foreground) == Pause(old(View(Foreground))).0
      ensures View(Background) == Pause(old(View(Background))).0
      ensures notices == Notices(Foreground, Pause(old(View(Foreground))).1)
                       + Notices(Background, Pause(old(View(Background))).1)
    {
      notices := [];
      if draining { return; }
      draining := true;
      var removed := waiting;
      PausedNotices(foregroundLine, backgroundLine);
      waiting, foregroundLine, backgroundLine := [], [], [];
      notices := RejectAll(removed);
    }

    /** Resume capacity scheduling. */
    method Resume(aborted: Lane -> set<Ticket>) returns (notices: seq<Notice>)
      requires Valid()
      modifies this
      ensures Valid() && !draining
      ensures View(Foreground) == FifoSemaphore.Resume(old(View(Foreground)), aborted(Foreground)).0
      ensures View(Background) == FifoSemaphore.Resume(old(View(Background)), aborted(Background)).0
      ensures notices == []
    {
      notices := [];
      if !draining { return; }
      draining := false;
      notices := Drain(aborted);
    }
  }

  /** A limiter exists only for a maximum between 2 and 32; anything else is a `TypeError`. */
  method NewLimiter(maximum: int) returns (limiter: TaskConcurrencyLimiter?)
    ensures limiter == null <==> !(2 <= maximum <= 32)
    ensures limiter != null ==>
      && fresh(limiter) && limiter.Valid() && limiter.maximum == maximum
      && limiter.View(Foreground) == Semaphore(maximum - 1, 0, [], true)
      && limiter.View(Background) == Semaphore(1, 0, [], true)
  {
    if maximum < 2 || maximum > 32 { return null; }
    limiter := new TaskConcurrencyLimiter(maximum);
  }

  function Other(lane: Lane): Lane {
    if lane == Foreground then Background else Foreground
  }

  lemma {:induction false} AbortSettlesOne(s: Semaphore, t: Ticket, aborted: set<Ticket>)
    requires s.Valid() && t in s.queue
    ensures Abort(s, t, aborted) == (s.(queue := Without(s.queue, t)), [Aborted(t)])
  {
    assert [Aborted(t)] + [] == [Aborted(t)];
  }

  lemma {:induction false} NoticeCons(lane: Lane, e: Effect, rest: seq<Effect>)
    ensures Notices(lane, [e] + rest) == [Notice(lane, e)] + Notices(lane, rest)
    ensures Notices(lane, [e]) == [Notice(lane, e)]
  {
    assert ([e] + rest)[1..] == rest;
    assert [e][1..] == [];
  }

  method RejectAll(removed: seq<Waiter>) returns (notices: seq<Notice>)
    ensures notices == AllPaused(removed)
  {
    notices := [];
    for i := 0 to |removed|
      invariant notices == AllPaused(removed[..i])
    {
      assert removed[..i + 1] == removed[..i] + [removed[i]];
      AllPausedConcat(removed[..i], [removed[i]]);
      notices := notices + [Notice(removed[i].lane, Paused(removed[i].ticket))];
    }
    assert removed[..|removed|] == removed;
  }

  /** What is still to be pumped, after the notices given so far, completes the pump of both lanes. */
  ghost predicate Drained(f0: Semaphore, b0: Semaphore, f: Semaphore, b: Semaphore,
                          aborted: Lane -> set<Ticket>, notices: seq<Notice>)
  {
    && Pump(f, aborted(Foreground)).0 == Pump(f0, aborted(Foreground)).0
    && Pump(b, aborted(Background)).0 == Pump(b0, aborted(Background)).0
    && notices + (Notices(Foreground, Pump(f, aborted(Foreground)).1)
      + Notices(Background, Pump(b, aborted(Background)).1))
       == Notices(Foreground, Pump(f0, aborted(Foreground)).1) + Notices(Background, Pump(b0, aborted(Background)).1)
  }

  lemma {:induction false} PumpUnfold(lane: Lane, s: Semaphore, aborted: set<Ticket>)
    requires s.Runnable()
    ensures var p := Pop(s, aborted);
      && Pump(s, aborted).0 == Pump(p.0, aborted).0
      && Notices(lane, Pump(s, aborted).1) == [Notice(lane, p.1)] + Notices(lane, Pump(p.0, aborted).1)
  {
    var p := Pop(s, aborted);
    assert Pump(s, aborted).1[1..] == Pump(p.0, aborted).1;
  }

  lemma {:induction false} DrainedStep(f0: Semaphore, b0: Semaphore, f: Semaphore, b: Semaphore,
                                       aborted: Lane -> set<Ticket>, notices: seq<Notice>)
    requires Drained(f0, b0, f, b, aborted, notices)
    ensures f.Runnable() ==> var p := Pop(f, aborted(Foreground));
      Drained(f0, b0, p.0, b, aborted, notices + [Notice(Foreground, p.1)])
    ensures !f.Runnable() && b.Runnable() ==> var p := Pop(b, aborted(Background));
      Drained(f0, b0, f, p.0, aborted, notices + [Notice(Background, p.1)])
  {
    if f.Runnable() {
      PumpUnfold(Foreground, f, aborted(Foreground));
      var p := Pop(f, aborted(Foreground));
      Shift(notices, Notice(Foreground, p.1), Notices(Foreground, Pump(p.0, aborted(Foreground)).1),
            Notices(Background, Pump(b, aborted(Background)).1));
    } else if b.Runnable() {
      PumpUnfold(Background, b, aborted(Background));
      var p := Pop(b, aborted(Background));
      Shift(notices, Notice(Background, p.1), [], Notices(Background, Pump(p.0, aborted(Background)).1));
    }
  }

  lemma {:induction false} Shift(a: seq<Notice>, x: Notice, b: seq<Notice>, c: seq<Notice>)
    ensures a + (([x] + b) + c) == (a + [x]) + (b + c)
    ensures a + ([] + ([x] + c)) == (a + [x]) + ([] + c)
  {
  }

  function AllPaused(w: seq<Waiter>): seq<Notice> {
    if w == [] then [] else [Notice(w[0].lane, Paused(w[0].ticket))] + AllPaused(w[1..])
  }

  lemma {:induction false} AllPausedConcat(a: seq<Waiter>, b: seq<Waiter>)
    ensures AllPaused(a + b) == AllPaused(a) + AllPaused(b)
  {
    if a == [] {
      assert a + b == b;
    } else {
      AllPausedConcat(a[1..], b);
      assert (a + b)[1..] == a[1..] + b;
      var x := [Notice(a[0].lane, Paused(a[0].ticket))];
      assert x + (AllPaused(a[1..]) + AllPaused(b)) == (x + AllPaused(a[1..])) + AllPaused(b);
    }
  }

  lemma {:induction false} AllPausedTagged(lane: Lane, q: seq<Ticket>)
    ensures AllPaused(Tagged(lane, q)) == Notices(lane, PausedAll(q))
  {
    if q != [] {
      AllPausedTagged(lane, q[1..]);
      assert Tagged(lane, q)[1..] == Tagged(lane, q[1..]);
      assert PausedAll(q)[1..] == PausedAll(q[1..]);
    }
  }

  lemma {:induction false} PausedNotices(f: seq<Ticket>, b: seq<Ticket>)
    ensures AllPaused(Tagged(Foreground, f) + Tagged(Background, b))
         == Notices(Foreground, PausedAll(f)) + Notices(Background, PausedAll(b))
  {
    AllPausedConcat(Tagged(Foreground, f), Tagged(Background, b));
    AllPausedTagged(Foreground, f);
    AllPausedTagged(Background, b);
  }

  lemma {:induction false} TaggedAppend(lane: Lane, q: seq<Ticket>, t: Ticket)
    ensures Tagged(lane, q + [t]) == Tagged(lane, q) + [Waiter(lane, t)]
  {
    if q == [] {
      assert [t][1..] == [] && [] + [t] == [t];
    } else {
      TaggedAppend(lane, q[1..], t);
      assert (q + [t])[1..] == q[1..] + [t];
    }
  }

  lemma {:induction false} BackgroundStarts(f: seq<Ticket>, b: seq<Ticket>)
    ensures FirstBackground(Tagged(Foreground, f) + Tagged(Background, b)) == |f|
  {
    var w := Tagged(Foreground, f) + Tagged(Background, b);
    if f != [] {
      BackgroundStarts(f[1..], b);
      assert w[1..] == Tagged(Foreground, f[1..]) + Tagged(Background, b);
    }
  }

  /** Inserting before the first background waiter, or at the end, extends the right line. */
  lemma {:induction false} Insertion(f: seq<Ticket>, b: seq<Ticket>, t: Ticket)
    ensures var w := Tagged(Foreground, f) + Tagged(Background, b);
      && FirstBackground(w) == |f|
      && w[..|f|] + [Waiter(Foreground, t)] + w[|f|..] == Tagged(Foreground, f + [t]) + Tagged(Background, b)
      && w + [Waiter(Background, t)] == Tagged(Foreground, f) + Tagged(Background, b + [t])
      && (b == [] ==> w + [Waiter(Foreground, t)] == Tagged(Foreground, f + [t]) + Tagged(Background, b))
  {
    BackgroundStarts(f, b);
    TaggedAppend(Foreground, f, t);
    TaggedAppend(Background, b, t);
  }

  lemma {:induction false} RunnableStarts(f: seq<Ticket>, b: seq<Ticket>, canBackground: bool)
    ensures FirstRunnable(Tagged(Foreground, f) + Tagged(Background, b), false, canBackground)
         == if canBackground then |f| else |f| + |b|
    decreases |f| + |b|
  {
    var w := Tagged(Foreground, f) + Tagged(Background, b);
    if f != [] {
      RunnableStarts(f[1..], b, canBackground);
      assert w[1..] == Tagged(Foreground, f[1..]) + Tagged(Background, b);
    } else if b != [] {
      RunnableStarts(f, b[1..], canBackground);
      assert w[1..] == Tagged(Foreground, f) + Tagged(Background, b[1..]);
    }
  }

  /** List order serves the foreground line first, and always the head of a line. */
  lemma {:induction false} RunnableInOrder(f: seq<Ticket>, b: seq<Ticket>, canForeground: bool, canBackground: bool)
    ensures var w := Tagged(Foreground, f) + Tagged(Background, b);
      var i := FirstRunnable(w, canForeground, canBackground);
      if canForeground && f != [] then
        i == 0 && w[i] == Waiter(Foreground, f[0])
          && Spliced(w, i) == Tagged(Foreground, f[1..]) + Tagged(Background, b)
      else if canBackground && b != [] then
        && i == |f| && w[i] == Waiter(Background, b[0])
        && Spliced(w, i) == Tagged(Foreground, f) + Tagged(Background, b[1..])
      else i == |w|
  {
    var w := Tagged(Foreground, f) + Tagged(Background, b);
    if canForeground && f == [] {
      assert w == Tagged(Background, b);
      NoForeground(b, canForeground, canBackground);
    }
    RunnableStarts(f, b, canBackground);
    if f != [] {
      SplicedConcat(Tagged(Foreground, f), Tagged(Background, b), 0);
      assert Tagged(Foreground, f)[..0] + Tagged(Foreground, f)[0 + 1..] == Tagged(Foreground, f[1..]);
    }
    if b != [] {
      SplicedConcat(Tagged(Foreground, f), Tagged(Background, b), |f|);
      assert Tagged(Background, b)[..0] + Tagged(Background, b)[0 + 1..] == Tagged(Background, b[1..]);
    }
  }

  lemma {:induction false} NoForeground(b: seq<Ticket>, canForeground: bool, canBackground: bool)
    ensures FirstRunnable(Tagged(Background, b), canForeground, canBackground) == if canBackground then 0 else |b|
  {
    if b != [] {
      NoForeground(b[1..], canForeground, canBackground);
      assert Tagged(Background, b)[1..] == Tagged(Background, b[1..]);
    }
  }

  lemma {:induction false} PositionTagged(lane: Lane, q: seq<Ticket>, x: Waiter, rest: seq<Waiter>)
    ensures Position(Tagged(lane, q) + rest, x)
         == if x.lane == lane && x.ticket in q then IndexOf(q, x.ticket) else |q| + Position(rest, x)
  {
    var w := Tagged(lane, q) + rest;
    if q == [] {
      assert w == rest;
    } else {
      PositionTagged(lane, q[1..], x, rest);
      assert w[1..] == Tagged(lane, q[1..]) + rest;
      assert x.ticket in q <==> x.ticket == q[0] || x.ticket in q[1..];
    }
  }

  lemma {:induction false} TaggedSplice(lane: Lane, q: seq<Ticket>, i: nat)
    requires i < |q|
    ensures Tagged(lane, q[..i] + q[i + 1..]) == Tagged(lane, q)[..i] + Tagged(lane, q)[i + 1..]
  {
    var w := Tagged(lane, q);
    if i == 0 {
      assert q[..i] + q[i + 1..] == q[1..];
    } else {
      var q' := q[1..];
      TaggedSplice(lane, q', i - 1);
      assert (q[..i] + q[i + 1..])[1..] == q'[..i - 1] + q'[i - 1 + 1..];
      assert w[..i] == [w[0]] + Tagged(lane, q')[..i - 1];
      assert w[i + 1..] == Tagged(lane, q')[i - 1 + 1..];
    }
  }

  /** `splice(indexOf(waiter), 1)` removes that waiter from its own line only. */
  lemma {:induction false} Removal(f: seq<Ticket>, b: seq<Ticket>, x: Waiter)
    requires x.ticket in (if x.lane == Foreground then f else b)
    ensures var w := Tagged(Foreground, f) + Tagged(Background, b);
      var i := Position(w, x);
      && i < |w|
      && (x.lane == Foreground ==>
            Spliced(w, i) == Tagged(Foreground, Without(f, x.ticket)) + Tagged(Background, b))
      && (x.lane == Background ==>
            Spliced(w, i) == Tagged(Foreground, f) + Tagged(Background, Without(b, x.ticket)))
  {
    var wf, wb := Tagged(Foreground, f), Tagged(Background, b);
    PositionTagged(Foreground, f, x, wb);
    if x.lane == Foreground {
      TaggedSplice(Foreground, f, IndexOf(f, x.ticket));
      SplicedConcat(wf, wb, IndexOf(f, x.ticket));
    } else {
      PositionTagged(Background, b, x, []);
      assert wb + [] == wb;
      TaggedSplice(Background, b, IndexOf(b, x.ticket));
      SplicedConcat(wf, wb, |f| + IndexOf(b, x.ticket));
    }
  }

  lemma {:induction false} SplicedConcat(a: seq<Waiter>, b: seq<Waiter>, i: nat)
    requires i < |a| + |b|
    ensures i < |a| ==> Spliced(a + b, i) == (a[..i] + a[i + 1..]) + b
    ensures i >= |a| ==> Spliced(a + b, i) == a + (b[..i - |a|] + b[i - |a| + 1..])
  {
  }

  lemma {:induction false} PumpSaturates(s: Semaphore, aborted: set<Ticket>)
    requires s.active <= s.capacity && (s.queue != [] ==> s.open)
    ensures Pump(s, aborted).0.Valid()
    decreases |s.queue|
  {
    if s.Runnable() { PumpSaturates(Pop(s, aborted).0, aborted); }
  }
}
