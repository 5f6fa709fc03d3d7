/**
 The reference that one admission lane of the harness is measured against: a
 plain first-in first-out counting semaphore that can be paused. It knows
 nothing about the other lane, about priorities or about a shared waiting list.
 */
module FifoSemaphore {

  /** One `acquire` call; calls are numbered in the order in which they are made. */
  type Ticket = int

  /** How a pending `acquire` promise is settled. */
  datatype Effect = Granted(ticket: Ticket) | Aborted(ticket: Ticket) | Paused(ticket: Ticket)

  datatype Semaphore = Semaphore(capacity: nat, active: nat, queue: seq<Ticket>, open: bool) {

    /** Nobody waits while a unit is free, and nobody waits while paused. */
    predicate Valid() {
      active <= capacity && (queue != [] ==> open && active == capacity)
    }

    predicate Runnable() {
      open && active < capacity && queue != []
    }
  }

  /** Settle the head of the queue with free capacity. */
  function Pop(s: Semaphore, aborted: set<Ticket>): (Semaphore, Effect)
    requires s.queue != []
  {
    if s.queue[0] in aborted then (s.(queue := s.queue[1..]), Aborted(s.queue[0]))
    else (s.(queue := s.queue[1..], active := s.active + 1), Granted(s.queue[0]))
  }

  /** Hand free units to the head of the queue; waiters whose signal is already aborted are rejected. */
  function Pump(s: Semaphore, aborted: set<Ticket>): (Semaphore, seq<Effect>)
    decreases |s.queue|
  {
    if !s.Runnable() then (s, []) else
    var p := Pop(s, aborted);
    var r := Pump(p.0, aborted);
    (r.0, [p.1] + r.1)
  }

  function Acquire(s: Semaphore, t: Ticket, aborted: set<Ticket>): (Semaphore, seq<Effect>) {
    if t in aborted then (s, [Aborted(t)])
    else if !s.open then (s, [Paused(t)])
    else if s.active < s.capacity then (s.(active := s.active + 1), [Granted(t)])
    else (s.(queue := s.queue + [t]), [])
  }

  function Freed(s: Semaphore): Semaphore {
    s.(active := if s.active == 0 then 0 else s.active - 1)
  }

  function Release(s: Semaphore, aborted: set<Ticket>): (Semaphore, seq<Effect>) {
    Pump(Freed(s), aborted)
  }

  /** The abort listener of a waiter: leave the queue, then pump. */
  function Abort(s: Semaphore, t: Ticket, aborted: set<Ticket>): (Semaphore, seq<Effect>) {
    var r := Pump(s.(queue := Without(s.queue, t)), aborted);
    (r.0, [Aborted(t)] + r.1)
  }

  function Pause(s: Semaphore): (Semaphore, seq<Effect>) {
    if !s.open then (s, []) else (s.(open := false, queue := []), PausedAll(s.queue))
  }

  function Resume(s: Semaphore, aborted: set<Ticket>): (Semaphore, seq<Effect>) {
    if s.open then (s, []) else Pump(s.(open := true), aborted)
  }

  function PausedAll(q: seq<Ticket>): seq<Effect> {
    if q == [] then [] else [Paused(q[0])] + PausedAll(q[1..])
  }

  /** Position of a ticket in the queue, or the length of the queue. */
  function IndexOf(q: seq<Ticket>, t: Ticket): (i: nat)
    ensures i <= |q|
    ensures i < |q| <==> t in q
    ensures i < |q| ==> q[i] == t
  {
    if q == [] || q[0] == t then 0 else 1 + IndexOf(q[1..], t)
  }

  function Without(q: seq<Ticket>, t: Ticket): seq<Ticket> {
    var i := IndexOf(q, t);
    if i < |q| then q[..i] + q[i + 1..] else q
  }

  // ---------------------------------------------------------------------
  // Runs of one lane
  // ---------------------------------------------------------------------

  /** One atomic event-loop turn seen by one lane. */
  datatype Op =
    | OpAcquire(t: Ticket)
    | OpRelease(t: Ticket)   // the `finally` of a holder
    | OpSignal(t: Ticket)    // the caller's AbortSignal becomes aborted
    | OpListener(t: Ticket)  // the abort listener of a queued waiter runs
    | OpPause
    | OpResume

  /** A lane together with what it has done so far. */
  datatype LaneRun = LaneRun(
    sem: Semaphore, held: set<Ticket>, aborted: set<Ticket>, arrivals: seq<Ticket>, trace: seq<Effect>)

  function Start(capacity: nat): LaneRun {
    LaneRun(Semaphore(capacity, 0, [], true), {}, {}, [], [])
  }

  function HeldAfter(held: set<Ticket>, e: Effect): set<Ticket> {
    if e.Granted? then held + {e.ticket} else held
  }

  /** Append settlements to the history, one by one. */
  function Note(r: LaneRun, e: seq<Effect>): LaneRun
    decreases |e|
  {
    if e == [] then r
    else Note(r.(trace := r.trace + [e[0]], held := HeldAfter(r.held, e[0])), e[1..])
  }

  function Record(r: LaneRun, p: (Semaphore, seq<Effect>)): LaneRun {
    Note(r, p.1).(sem := p.0)
  }

  /** Every `acquire` call is a new, later waiter, a unit is released once by its holder,
      and the listener fires only while the waiter is registered. */
  predicate Enabled(r: LaneRun, op: Op) {
    match op
    case OpAcquire(t) => r.arrivals == [] || r.arrivals[|r.arrivals| - 1] < t
    case OpRelease(t) => t in r.held
    case OpListener(t) => t in r.sem.queue && t in r.aborted
    case _ => true
  }

  function Step(r: LaneRun, op: Op): LaneRun {
    if !Enabled(r, op) then r else
    match op
    case OpAcquire(t) => Record(r.(arrivals := r.arrivals + [t]), Acquire(r.sem, t, r.aborted))
    case OpRelease(t) => Record(r.(held := r.held - {t}), Release(r.sem, r.aborted))
    case OpSignal(t) => r.(aborted := r.aborted + {t})
    case OpListener(t) => Record(r, Abort(r.sem, t, r.aborted))
    case OpPause => Record(r, Pause(r.sem))
    case OpResume => Record(r, Resume(r.sem, r.aborted))
  }

  function Run(r: LaneRun, ops: seq<Op>): LaneRun {
    if ops == [] then r else Step(Run(r, ops[..|ops| - 1]), ops[|ops| - 1])
  }

  /** The tickets granted, in the order of the grants. */
  function Grants(e: seq<Effect>): seq<Ticket> {
    if e == [] then [] else
    Grants(e[..|e| - 1]) + (if e[|e| - 1].Granted? then [e[|e| - 1].ticket] else [])
  }

  /** How often a ticket occurs in a line, and how often it was settled. */
  function Count(q: seq<Ticket>, t: Ticket): nat {
    if q == [] then 0 else (if q[0] == t then 1 else 0) + Count(q[1..], t)
  }

  function Settlements(e: seq<Effect>, t: Ticket): nat {
    if e == [] then 0 else (if e[0].ticket == t then 1 else 0) + Settlements(e[1..], t)
  }

  /** Grants made so far, followed by the waiters still in line. */
  function Line(r: LaneRun): seq<Ticket> {
    Grants(r.trace) + r.sem.queue
  }

  function At(s: seq<Ticket>, i: nat): Ticket
    requires i < |s|
  {
    s[i]
  }

  /** Strictly ascending; stated through `At` so that only proofs about order look into it. */
  ghost predicate Increasing(s: seq<Ticket>) {
    forall i: nat, j: nat :: i < j < |s| ==> At(s, i) < At(s, j)
  }

  /** What holds of a lane between any two settlements. */
  ghost predicate History(r: LaneRun) {
    && Increasing(Line(r))
    && (Line(r) != [] ==> r.arrivals != [] && Line(r)[|Line(r)| - 1] <= r.arrivals[|r.arrivals| - 1])
    && |r.held| == r.sem.active
    && (forall t :: t in r.held ==> t in Grants(r.trace))
  }

  /** Every arrival is granted, rejected or still waiting, exactly once. */
  ghost predicate Conserved(r: LaneRun) {
    forall t :: Count(r.arrivals, t) == Settlements(r.trace, t) + Count(r.sem.queue, t)
  }

  /** What every reachable lane satisfies: see `RunKeepsInvariant`. */
  ghost predicate LaneInv(r: LaneRun) {
    r.sem.Valid() && History(r)
  }

  // ---------------------------------------------------------------------
  // Proofs
  // ---------------------------------------------------------------------

  lemma {:induction false} IncreasingSlice(a: seq<Ticket>, b: seq<Ticket>, c: seq<Ticket>)
    requires Increasing(a + b + c)
    ensures Increasing(a + c)
  {
    var l, s := a + b + c, a + c;
    forall i: nat, j: nat | i < j < |s| ensures At(s, i) < At(s, j) {
      var i' := if i < |a| then i else i + |b|;
      var j' := if j < |a| then j else j + |b|;
      assert At(s, i) == At(l, i') && At(s, j) == At(l, j');
    }
  }

  /** Settling one waiter somewhere in the queue. */
  function SettleAt(r: LaneRun, i: nat, e: Effect): LaneRun
    requires i < |r.sem.queue|
  {
    r.(sem := r.sem.(queue := r.sem.queue[..i] + r.sem.queue[i + 1..],
                     active := r.sem.active + if e.Granted? then 1 else 0),
       trace := r.trace + [e], held := HeldAfter(r.held, e))
  }

  lemma {:induction false} GrantMovesHead(trace: seq<Effect>, q: seq<Ticket>)
    requires q != []
    ensures Grants(trace + [Granted(q[0])]) == Grants(trace) + [q[0]]
    ensures Grants(trace) + [q[0]] + (q[..0] + q[0 + 1..]) == Grants(trace) + q
  {
    assert (trace + [Granted(q[0])])[..|trace|] == trace;
  }

  /** The head may be granted ... */
  lemma {:induction false} GrantKeepsHistory(r: LaneRun)
    requires History(r) && r.sem.queue != []
    ensures History(SettleAt(r, 0, Granted(r.sem.queue[0])))
  {
    GrantMovesHead(r.trace, r.sem.queue);
    NotGrantedYet(Grants(r.trace), r.sem.queue);
  }

  lemma {:induction false} NotGrantedYet(g: seq<Ticket>, q: seq<Ticket>)
    requires Increasing(g + q) && q != []
    ensures q[0] !in g
  {
    forall k | 0 <= k < |g| ensures g[k] < q[0] { assert At(g + q, k) < At(g + q, |g|); }
  }

  /** ... and any waiter may be rejected: the history stays consistent. */
  lemma {:induction false} RejectKeepsHistory(r: LaneRun, i: nat, e: Effect)
    requires History(r) && i < |r.sem.queue| && e.ticket == r.sem.queue[i] && !e.Granted?
    ensures History(SettleAt(r, i, e))
  {
    var q, t, g := r.sem.queue, e.ticket, Grants(r.trace);
    var r' := SettleAt(r, i, e);
    assert r'.trace[..|r'.trace| - 1] == r.trace;
    assert Grants(r'.trace) == g;
    SplitAt(g, q, i);
    IncreasingSlice(g + q[..i], [t], q[i + 1..]);
    assert Line(r') == (g + q[..i]) + q[i + 1..];
    if Line(r') != [] {
      var n := |Line(r')| - 1;
      assert Line(r')[n] == if n < |g| + i then At(Line(r), n) else At(Line(r), n + 1);
      assert At(Line(r), |Line(r)| - 1) == Line(r)[|Line(r)| - 1];
    }
  }

  lemma {:induction false} SplitAt(g: seq<Ticket>, q: seq<Ticket>, i: nat)
    requires i < |q|
    ensures g + q == (g + q[..i]) + [q[i]] + q[i + 1..]
  {
  }

  lemma {:induction false} PopIsSettle(r: LaneRun)
    requires r.sem.queue != []
    ensures var p := Pop(r.sem, r.aborted);
      && r.(sem := p.0, trace := r.trace + [p.1], held := HeldAfter(r.held, p.1)) == SettleAt(r, 0, p.1)
      && p.1.ticket == r.sem.queue[0] && !p.1.Paused?
  {
    assert r.sem.queue[..0] + r.sem.queue[0 + 1..] == r.sem.queue[1..];
  }

  /** A pump keeps the history and leaves no runnable waiter behind. */
  lemma {:induction false} PumpKeepsHistory(r: LaneRun)
    requires History(r) && r.sem.active <= r.sem.capacity && (r.sem.queue != [] ==> r.sem.open)
    ensures var p := Pump(r.sem, r.aborted); LaneInv(Record(r, p)) && p.0.capacity == r.sem.capacity
    decreases |r.sem.queue|
  {
    if r.sem.Runnable() {
      var p := Pop(r.sem, r.aborted);
      var r' := SettleAt(r, 0, p.1);
      PopIsSettle(r);
      if p.1.Granted? { GrantKeepsHistory(r); } else { RejectKeepsHistory(r, 0, p.1); }
      PumpKeepsHistory(r');
      var rest := Pump(p.0, r.aborted).1;
      assert ([p.1] + rest)[1..] == rest;
      assert Note(r, [p.1] + rest) == Note(r.(trace := r'.trace, held := r'.held), rest);
      NoteIgnoresSem(r.(trace := r'.trace, held := r'.held), r'.sem, rest);
    } else {
      assert Record(r, (r.sem, [])) == r;
    }
  }

  lemma {:induction false} NoteIgnoresSem(r: LaneRun, s: Semaphore, e: seq<Effect>)
    ensures Note(r.(sem := s), e) == Note(r, e).(sem := s)
    decreases |e|
  {
    if e != [] {
      NoteIgnoresSem(r.(trace := r.trace + [e[0]], held := HeldAfter(r.held, e[0])), s, e[1..]);
    }
  }

  lemma {:induction false} ReleaseKeepsInvariant(r: LaneRun, t: Ticket)
    requires LaneInv(r) && t in r.held
    ensures var p := Release(r.sem, r.aborted);
      LaneInv(Record(r.(held := r.held - {t}), p)) && p.0.capacity == r.sem.capacity
  {
    var r' := r.(held := r.held - {t}, sem := Freed(r.sem));
    assert |r.held - {t}| == |r.held| - 1;
    assert Line(r') == Line(r);
    PumpKeepsHistory(r');
    NoteIgnoresSem(r', r.sem, Release(r.sem, r.aborted).1);
  }

  lemma {:induction false} ListenerKeepsInvariant(r: LaneRun, t: Ticket)
    requires LaneInv(r) && t in r.sem.queue
    ensures var p := Abort(r.sem, t, r.aborted); LaneInv(Record(r, p)) && p.0.capacity == r.sem.capacity
  {
    var i := IndexOf(r.sem.queue, t);
    RejectKeepsHistory(r, i, Aborted(t));
    var r' := SettleAt(r, i, Aborted(t));
    var p := Abort(r.sem, t, r.aborted);
    assert Pump(r'.sem, r.aborted) == (r'.sem, []);
    assert p.1 == [Aborted(t)] && p.1[1..] == [];
    assert Note(r, p.1) == Note(r.(trace := r.trace + [Aborted(t)]), []);
  }

  lemma {:induction false} PauseKeepsHistory(r: LaneRun)
    requires History(r)
    ensures var r' := Note(r, PausedAll(r.sem.queue)).(sem := r.sem.(open := false, queue := []));
      History(r')
    decreases |r.sem.queue|
  {
    var q := r.sem.queue;
    if q == [] {
      assert Line(r.(sem := r.sem.(open := false, queue := []))) == Line(r);
    } else {
      RejectKeepsHistory(r, 0, Paused(q[0]));
      var r' := SettleAt(r, 0, Paused(q[0]));
      assert q[..0] + q[0 + 1..] == q[1..];
      PauseKeepsHistory(r');
      assert ([Paused(q[0])] + PausedAll(q[1..]))[1..] == PausedAll(q[1..]);
      NoteIgnoresSem(r.(trace := r'.trace), r'.sem, PausedAll(q[1..]));
    }
  }

  function Enqueued(r: LaneRun, t: Ticket): LaneRun {
    r.(arrivals := r.arrivals + [t], sem := r.sem.(queue := r.sem.queue + [t]))
  }

  lemma {:induction false} EnqueueKeepsHistory(r: LaneRun, t: Ticket)
    requires History(r) && Enabled(r, OpAcquire(t))
    ensures History(Enqueued(r, t))
  {
    AppendLater(Line(r), t);
    assert Line(Enqueued(r, t)) == Line(r) + [t];
  }

  /** The newcomer joins the queue and may be settled at once. */
  lemma {:induction false} AcquireIs(r: LaneRun, t: Ticket)
    requires r.sem.Valid()
    ensures var p := Acquire(r.sem, t, r.aborted);
      var r' := Record(r.(arrivals := r.arrivals + [t]), p);
      if p.1 == [] then r' == Enqueued(r, t)
      else p.1[0].ticket == t && r' == SettleAt(Enqueued(r, t), |r.sem.queue|, p.1[0])
    ensures Acquire(r.sem, t, r.aborted).0.Valid()
    ensures Acquire(r.sem, t, r.aborted).1 == [Granted(t)] ==> r.sem.queue == []
  {
    var p := Acquire(r.sem, t, r.aborted);
    if p.1 != [] { SettleNewcomer(r, t, p.1[0]); }
  }

  lemma {:induction false} AcquireKeepsInvariant(r: LaneRun, t: Ticket)
    requires LaneInv(r) && Enabled(r, OpAcquire(t))
    ensures LaneInv(Record(r.(arrivals := r.arrivals + [t]), Acquire(r.sem, t, r.aborted)))
  {
    EnqueueKeepsHistory(r, t);
    AcquireIs(r, t);
    var r', e := Enqueued(r, t), Acquire(r.sem, t, r.aborted).1;
    if e != [] {
      if e[0].Granted? { GrantKeepsHistory(r'); } else { RejectKeepsHistory(r', |r.sem.queue|, e[0]); }
    }
  }

  lemma {:induction false} SettleNewcomer(r: LaneRun, t: Ticket, e: Effect)
    requires e.ticket == t
    ensures var q, s := r.sem.queue, SettleAt(Enqueued(r, t), |r.sem.queue|, e);
      && s.sem.queue == q
      && Note(r.(arrivals := r.arrivals + [t]), [e]).(sem := s.sem) == s
  {
    var q := r.sem.queue;
    assert (q + [t])[..|q|] + (q + [t])[|q| + 1..] == q;
    assert [e][1..] == [];
    assert Note(r.(arrivals := r.arrivals + [t]), [e]) ==
      r.(arrivals := r.arrivals + [t], trace := r.trace + [e], held := HeldAfter(r.held, e));
  }

  lemma {:induction false} AppendLater(s: seq<Ticket>, t: Ticket)
    requires Increasing(s) && (s == [] || s[|s| - 1] < t)
    ensures Increasing(s + [t])
  {
    forall i: nat, j: nat | i < j < |s + [t]| ensures At(s + [t], i) < At(s + [t], j) {
      if j < |s| { assert At(s, i) < At(s, j); }
      else if i < |s| - 1 { assert At(s, i) < At(s, |s| - 1); }
    }
  }

  /** Every step of one lane keeps the invariant. */
  lemma {:induction false} StepKeepsInvariant(r: LaneRun, op: Op)
    requires LaneInv(r)
    ensures LaneInv(Step(r, op)) && Step(r, op).sem.capacity == r.sem.capacity
  {
    if Enabled(r, op) {
      match op {
        case OpAcquire(t) => AcquireKeepsInvariant(r, t);
        case OpRelease(t) => ReleaseKeepsInvariant(r, t);
        case OpSignal(t) => assert Line(Step(r, op)) == Line(r);
        case OpListener(t) => ListenerKeepsInvariant(r, t);
        case OpPause =>
          if r.sem.open { PauseKeepsHistory(r); } else { assert Note(r, []) == r; }
        case OpResume =>
          var p := Resume(r.sem, r.aborted);
          assert p.1 == [] && Note(r, []) == r;
          assert Line(Step(r, op)) == Line(r);
      }
    }
  }

  lemma {:induction false} GrantsConcat(a: seq<Effect>, b: seq<Effect>)
    ensures Grants(a + b) == Grants(a) + Grants(b)
  {
    if b == [] {
      assert a + b == a;
    } else {
      GrantsConcat(a, b[..|b| - 1]);
      assert (a + b)[..|a + b| - 1] == a + b[..|b| - 1];
    }
  }

  /** A pump grants exactly the units it takes. */
  lemma {:induction false} PumpGrants(s: Semaphore, aborted: set<Ticket>)
    requires s.active <= s.capacity
    ensures var p := Pump(s, aborted); p.0.active == s.active + |Grants(p.1)| && p.0.active <= s.capacity
    decreases |s.queue|
  {
    if s.Runnable() {
      var p := Pop(s, aborted);
      PumpGrants(p.0, aborted);
      GrantsConcat([p.1], Pump(p.0, aborted).1);
      assert [p.1][..0] == [];
    }
  }

  /** In a valid lane a release wakes at most one waiter, and a resume or an abort wakes nobody. */
  lemma {:induction false} AtMostOneWakeup(s: Semaphore, t: Ticket, aborted: set<Ticket>)
    requires s.Valid()
    ensures s.active > 0 ==> |Grants(Release(s, aborted).1)| <= 1
    ensures Resume(s, aborted).1 == []
    ensures t in s.queue ==> Abort(s, t, aborted).1 == [Aborted(t)]
  {
    PumpGrants(Freed(s), aborted);
    if s.queue == [] || s.active == s.capacity {
      var left := s.(queue := Without(s.queue, t));
      assert Pump(left, aborted) == (left, []);
    }
  }

  // Conservation, ticket by ticket.

  lemma {:induction false} CountConcat(a: seq<Ticket>, b: seq<Ticket>, t: Ticket)
    ensures Count(a + b, t) == Count(a, t) + Count(b, t)
  {
    if a == [] {
      assert a + b == b;
    } else {
      CountConcat(a[1..], b, t);
      assert (a + b)[1..] == a[1..] + b;
    }
  }

  lemma {:induction false} SettlementsConcat(a: seq<Effect>, b: seq<Effect>, t: Ticket)
    ensures Settlements(a + b, t) == Settlements(a, t) + Settlements(b, t)
  {
    if a == [] {
      assert a + b == b;
    } else {
      SettlementsConcat(a[1..], b, t);
      assert (a + b)[1..] == a[1..] + b;
    }
  }

  lemma {:induction false} PumpConserves(s: Semaphore, aborted: set<Ticket>, t: Ticket)
    ensures var p := Pump(s, aborted); Settlements(p.1, t) + Count(p.0.queue, t) == Count(s.queue, t)
    decreases |s.queue|
  {
    if s.Runnable() {
      var p := Pop(s, aborted);
      PumpConserves(p.0, aborted, t);
      SettlementsConcat([p.1], Pump(p.0, aborted).1, t);
    }
  }

  lemma {:induction false} PauseConserves(q: seq<Ticket>, t: Ticket)
    ensures Settlements(PausedAll(q), t) == Count(q, t)
  {
    if q != [] {
      PauseConserves(q[1..], t);
      SettlementsConcat([Paused(q[0])], PausedAll(q[1..]), t);
    }
  }

  lemma {:induction false} WithoutCounts(q: seq<Ticket>, u: Ticket, t: Ticket)
    requires u in q
    ensures Count(Without(q, u), t) == Count(q, t) - if t == u then 1 else 0
  {
    var i := IndexOf(q, u);
    assert q == q[..i] + ([u] + q[i + 1..]);
    CountConcat(q[..i], q[i + 1..], t);
    CountConcat(q[..i], [u] + q[i + 1..], t);
    CountConcat([u], q[i + 1..], t);
  }

  lemma {:induction false} AbortConserves(s: Semaphore, u: Ticket, aborted: set<Ticket>, t: Ticket)
    requires u in s.queue
    ensures var p := Abort(s, u, aborted); Settlements(p.1, t) + Count(p.0.queue, t) == Count(s.queue, t)
  {
    var left := s.(queue := Without(s.queue, u));
    PumpConserves(left, aborted, t);
    SettlementsConcat([Aborted(u)], Pump(left, aborted).1, t);
    WithoutCounts(s.queue, u, t);
  }

  lemma {:induction false} NoteTrace(r: LaneRun, e: seq<Effect>)
    ensures Note(r, e).trace == r.trace + e && Note(r, e).arrivals == r.arrivals
    decreases |e|
  {
    if e != [] {
      NoteTrace(r.(trace := r.trace + [e[0]], held := HeldAfter(r.held, e[0])), e[1..]);
      assert r.trace + [e[0]] + e[1..] == r.trace + e;
    }
  }

  lemma {:induction false} RecordConserves(r: LaneRun, p: (Semaphore, seq<Effect>), t: Ticket)
    requires Settlements(p.1, t) + Count(p.0.queue, t) + Settlements(r.trace, t) == Count(r.arrivals, t)
    ensures var r' := Record(r, p);
      Count(r'.arrivals, t) == Settlements(r'.trace, t) + Count(r'.sem.queue, t)
  {
    NoteTrace(r, p.1);
    SettlementsConcat(r.trace, p.1, t);
  }

  /** Every step settles exactly the tickets that leave the queue. */
  lemma {:induction false} StepConserves(r: LaneRun, op: Op)
    requires Conserved(r)
    ensures Conserved(Step(r, op))
  {
    if Enabled(r, op) && !op.OpSignal? {
      forall t ensures var r' := Step(r, op);
          Count(r'.arrivals, t) == Settlements(r'.trace, t) + Count(r'.sem.queue, t)
      {
        match op {
          case OpAcquire(u) =>
            CountConcat(r.arrivals, [u], t);
            CountConcat(r.sem.queue, [u], t);
            RecordConserves(r.(arrivals := r.arrivals + [u]), Acquire(r.sem, u, r.aborted), t);
          case OpRelease(u) =>
            PumpConserves(Freed(r.sem), r.aborted, t);
            RecordConserves(r.(held := r.held - {u}), Release(r.sem, r.aborted), t);
          case OpSignal(u) =>
          case OpListener(u) =>
            AbortConserves(r.sem, u, r.aborted, t);
            RecordConserves(r, Abort(r.sem, u, r.aborted), t);
          case OpPause =>
            PauseConserves(r.sem.queue, t);
            RecordConserves(r, Pause(r.sem), t);
          case OpResume =>
            PumpConserves(r.sem.(open := true), r.aborted, t);
            RecordConserves(r, Resume(r.sem, r.aborted), t);
        }
      }
    }
  }

  /** Over every run of one lane: holders never exceed the capacity, nobody waits while a unit is
      free, tickets are granted in arrival order with every waiter behind every grant, and every
      arrival is exactly one of granted, rejected or still waiting. */
  lemma {:induction false} RunKeepsInvariant(capacity: nat, ops: seq<Op>)
    ensures var r := Run(Start(capacity), ops);
      && LaneInv(r) && Conserved(r)
      && |r.held| <= r.sem.capacity == capacity
      && (r.sem.queue != [] ==> |r.held| == capacity)
  {
    if ops == [] {
    } else {
      var front := ops[..|ops| - 1];
      RunKeepsInvariant(capacity, front);
      StepKeepsInvariant(Run(Start(capacity), front), ops[|ops| - 1]);
      StepConserves(Run(Start(capacity), front), ops[|ops| - 1]);
    }
  }

  // ---------------------------------------------------------------------
  // One step, seen from outside
  // ---------------------------------------------------------------------

  lemma {:induction false} RecordTrace(r: LaneRun, p: (Semaphore, seq<Effect>))
    ensures Record(r, p).trace == r.trace + p.1 && Record(r, p).sem == p.0 && Record(r, p).aborted == r.aborted
  {
    NoteTrace(r, p.1);
    NoteAborted(r, p.1);
  }

  lemma {:induction false} NoteAborted(r: LaneRun, e: seq<Effect>)
    ensures Note(r, e).aborted == r.aborted
    decreases |e|
  {
    if e != [] { NoteAborted(r.(trace := r.trace + [e[0]], held := HeldAfter(r.held, e[0])), e[1..]); }
  }

  /** What an operation of a lane does to its semaphore. */
  function OpEffect(s: Semaphore, op: Op, aborted: set<Ticket>): (Semaphore, seq<Effect>) {
    match op
    case OpAcquire(t) => Acquire(s, t, aborted)
    case OpRelease(t) => Release(s, aborted)
    case OpSignal(t) => (s, [])
    case OpListener(t) => Abort(s, t, aborted)
    case OpPause => Pause(s)
    case OpResume => Resume(s, aborted)
  }

  lemma {:induction false} StepIs(r: LaneRun, op: Op)
    requires Enabled(r, op)
    ensures Step(r, op).sem == OpEffect(r.sem, op, r.aborted).0
    ensures Step(r, op).trace == r.trace + OpEffect(r.sem, op, r.aborted).1
  {
    var p := OpEffect(r.sem, op, r.aborted);
    match op
    case OpAcquire(t) => RecordTrace(r.(arrivals := r.arrivals + [t]), p);
    case OpRelease(t) => RecordTrace(r.(held := r.held - {t}), p);
    case OpSignal(t) => assert r.trace + [] == r.trace;
    case _ => RecordTrace(r, p);
  }

  lemma {:induction false} StepAborted(r: LaneRun, op: Op)
    ensures Enabled(r, op) ==> Step(r, op).aborted == r.aborted + if op.OpSignal? then {op.t} else {}
  {
    match op
    case OpAcquire(t) => NoteAborted(r.(arrivals := r.arrivals + [t]), Acquire(r.sem, t, r.aborted).1);
    case OpRelease(t) => NoteAborted(r.(held := r.held - {t}), Release(r.sem, r.aborted).1);
    case OpSignal(t) =>
    case OpListener(t) => NoteAborted(r, Abort(r.sem, t, r.aborted).1);
    case OpPause => NoteAborted(r, Pause(r.sem).1);
    case OpResume => NoteAborted(r, Resume(r.sem, r.aborted).1);
  }
}
