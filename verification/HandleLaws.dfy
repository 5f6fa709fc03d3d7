/**
 What the callers of a session handle can rely on, in terms of the pieces that
 ran: which calls are taken, in which order they are carried out, what a handle
 that is closing or has lost its ownership still does, and that a handle without
 failures drains completely.
 */
module HandleLaws {
  import opened Options
  import opened SessionStore
  import opened SessionHandle

  function PieceAt(ps: seq<Piece>, i: nat): Piece
    requires i < |ps|
  {
    ps[i]
  }

  /** The handle after these pieces, from the moment it was opened. */
  function After(base: nat, ps: seq<Piece>, limits: Limits): Handle {
    DoAll(Opened(base), ps, limits)
  }

  ghost predicate CloseCalled(ps: seq<Piece>) {
    exists i: nat :: i < |ps| && PieceAt(ps, i) == DoClose
  }

  /** A heartbeat, or a request that was under way, was told that the ownership is gone. */
  ghost predicate LossLearned(base: nat, ps: seq<Piece>, limits: Limits) {
    exists i: nat :: i < |ps| && TellsLoss(After(base, ps[..i], limits), PieceAt(ps, i))
  }

  predicate TellsLoss(h: Handle, p: Piece) {
    p == DoHeartbeatLost || (p == DoFail(true) && h.stage != Idle)
  }

  lemma {:induction false} CloseCalledNext(past: seq<Piece>, p: Piece)
    ensures CloseCalled(past + [p]) <==> CloseCalled(past) || p == DoClose
  {
    var ps := past + [p];
    assert PieceAt(ps, |past|) == p;
    if CloseCalled(past) {
      var i: nat :| i < |past| && PieceAt(past, i) == DoClose;
      assert PieceAt(ps, i) == DoClose;
    }
    if CloseCalled(ps) && p != DoClose {
      var i: nat :| i < |ps| && PieceAt(ps, i) == DoClose;
      assert PieceAt(past, i) == DoClose;
    }
  }

  lemma {:induction false} LossLearnedNext(base: nat, past: seq<Piece>, p: Piece, limits: Limits)
    ensures LossLearned(base, past + [p], limits) <==>
      LossLearned(base, past, limits) || TellsLoss(After(base, past, limits), p)
  {
    var ps := past + [p];
    assert PieceAt(ps, |past|) == p && ps[..|past|] == past;
    if LossLearned(base, past, limits) {
      var i: nat :| i < |past| && TellsLoss(After(base, past[..i], limits), PieceAt(past, i));
      assert ps[..i] == past[..i] && PieceAt(ps, i) == PieceAt(past, i);
    }
    if LossLearned(base, ps, limits) && !TellsLoss(After(base, past, limits), p) {
      var i: nat :| i < |ps| && TellsLoss(After(base, ps[..i], limits), PieceAt(ps, i));
      assert i < |past| && ps[..i] == past[..i] && PieceAt(ps, i) == PieceAt(past, i);
    }
  }

  lemma {:induction false} FlagsNext(h: Handle, p: Piece, limits: Limits)
    ensures Do(h, p, limits).closing <==> h.closing || p == DoClose
    ensures Do(h, p, limits).lost <==> h.lost || TellsLoss(h, p)
  {
  }

  /** The two flags of a handle say exactly what it has been told. */
  lemma {:induction false} FlagsAre(base: nat, ps: seq<Piece>, limits: Limits)
    ensures After(base, ps, limits).closing <==> CloseCalled(ps)
    ensures After(base, ps, limits).lost <==> LossLearned(base, ps, limits)
  {
    if ps != [] {
      var past, p := ps[..|ps| - 1], ps[|ps| - 1];
      assert ps == past + [p];
      FlagsAre(base, past, limits);
      FlagsNext(After(base, past, limits), p, limits);
      CloseCalledNext(past, p);
      LossLearnedNext(base, past, p, limits);
    }
  }

  // ---------------------------------------------------------------------
  // Which calls are taken
  // ---------------------------------------------------------------------

  /** The first condition that forbids a call. */
  ghost function Refusal(base: nat, ps: seq<Piece>, limits: Limits): Option<Failure> {
    if CloseCalled(ps) then Some(Closed) else if LossLearned(base, ps, limits) then Some(Lost) else None
  }

  /** After every run: an event is taken iff the handle was not closed, does not know of a loss, and the queue
      is below its limit; then it is the last of the queue. A refused call names the first condition that
      failed and changes nothing. */
  lemma {:induction false} EnqueueIff(base: nat, ps: seq<Piece>, e: Event, limits: Limits)
    ensures var h := After(base, ps, limits);
      var (h', failure) := EnqueueEvent(h, e, limits);
      var refusal := Refusal(base, ps, limits);
      && failure ==
        (if refusal.Some? then refusal else if |h.pending| >= limits.maxPending then Some(Backlog) else None)
      && (failure.Some? ==> h' == h)
      && (failure.None? ==> h' == h.(pending := h.pending + [e], enqueued := h.enqueued + [e]))
  {
    FlagsAre(base, ps, limits);
  }

  /** A flush and an append are taken on the same terms, and queue up behind all calls before them; a flush
      remembers how much had been enqueued. Closing is taken once. */
  lemma {:induction false} CallsIff(base: nat, ps: seq<Piece>, events: Batch, limits: Limits)
    ensures var h := After(base, ps, limits); var refusal := Refusal(base, ps, limits);
      && CallFlush(h) ==
        (if refusal.Some? then (h, refusal) else (h.(chain := h.chain + [FlushGoal(|h.enqueued|)]), None))
      && CallAppend(h, events) ==
        (if refusal.Some? then (h, refusal) else (h.(chain := h.chain + [AppendGoal(events)]), None))
      && CallClose(h) == if CloseCalled(ps) then h else h.(closing := true, chain := h.chain + [CloseGoal])
  {
    FlagsAre(base, ps, limits);
  }

  // ---------------------------------------------------------------------
  // After a loss or a close
  // ---------------------------------------------------------------------

  /** The flush and append calls that have not begun. */
  function Ordinary(chain: seq<Goal>): seq<Goal> {
    if chain == [] then [] else (if chain[0].CloseGoal? then [] else [chain[0]]) + Ordinary(chain[1..])
  }

  predicate Suffix<T(==)>(a: seq<T>, b: seq<T>) {
    |a| <= |b| && a == b[|b| - |a|..]
  }

  lemma {:induction false} SuffixTransitive<T>(a: seq<T>, b: seq<T>, c: seq<T>)
    requires Suffix(a, b) && Suffix(b, c)
    ensures Suffix(a, c)
  {
  }

  lemma {:induction false} OrdinaryClose(chain: seq<Goal>)
    ensures Ordinary(chain + [CloseGoal]) == Ordinary(chain)
  {
    if chain != [] {
      OrdinaryClose(chain[1..]);
      assert (chain + [CloseGoal])[1..] == chain[1..] + [CloseGoal];
    } else {
      assert [CloseGoal][1..] == [] && chain + [CloseGoal] == [CloseGoal];
    }
  }

  lemma {:induction false} SuffixDrop<T>(a: seq<T>, k: nat)
    requires k <= |a|
    ensures Suffix(a[k..], a) && Suffix(a, a) && Suffix([], a)
  {
  }

  lemma {:induction false} PendingStays(h: Handle, p: Piece, limits: Limits)
    requires (h.lost || h.closing) && !p.DoAcknowledge?
    ensures Do(h, p, limits).enqueued == h.enqueued && Do(h, p, limits).pending == h.pending
  {
  }

  lemma {:induction false} RejectPending(h: Handle)
    ensures Reject(h).pending == h.pending && Reject(h).enqueued == h.enqueued
  {
  }

  /** How much an acknowledgement takes off the queue. */
  lemma {:induction false} AcknowledgedPart(h: Handle, next: nat) returns (k: nat)
    ensures k <= |h.pending| && Acknowledge(h, next).pending == h.pending[k..]
    ensures Acknowledge(h, next).enqueued == h.enqueued
  {
    k := 0;
    assert h.pending[0..] == h.pending;
    if h.stage.AwaitAck? {
      RejectPending(h);
      if next == h.nextSeq + |h.stage.batch| && !h.stage.direct {
        k := if |h.stage.batch| <= |h.pending| then |h.stage.batch| else |h.pending|;
        assert h.pending[|h.pending|..] == [];
      }
    }
  }

  lemma {:induction false} PendingShrinks(h: Handle, p: Piece, limits: Limits)
    requires h.lost || h.closing
    ensures Do(h, p, limits).enqueued == h.enqueued && Suffix(Do(h, p, limits).pending, h.pending)
  {
    if p.DoAcknowledge? {
      var k := AcknowledgedPart(h, p.next);
      SuffixDrop(h.pending, k);
    } else {
      PendingStays(h, p, limits);
      SuffixDrop(h.pending, 0);
    }
  }

  lemma {:induction false} ChainIs(h: Handle, p: Piece, limits: Limits)
    requires h.lost || h.closing
    ensures var next := Do(h, p, limits).chain;
      next == h.chain || next == h.chain + [CloseGoal] || (h.chain != [] && next == h.chain[1..])
  {
  }

  lemma {:induction false} LineShrinks(h: Handle, p: Piece, limits: Limits)
    requires h.lost || h.closing
    ensures Suffix(Ordinary(Do(h, p, limits).chain), Ordinary(h.chain))
  {
    var line := Ordinary(h.chain);
    ChainIs(h, p, limits);
    OrdinaryClose(h.chain);
    SuffixDrop(line, 0);
    if h.chain != [] {
      SuffixDrop(line, |line| - |Ordinary(h.chain[1..])|);
      assert line[|line| - |Ordinary(h.chain[1..])|..] == Ordinary(h.chain[1..]);
    }
  }

  /** A handle that takes no more calls: nothing is enqueued, the queue only shrinks from its front, and no
      flush or append joins the line. */
  lemma {:induction false} PieceTakesNothing(h: Handle, p: Piece, limits: Limits)
    requires h.lost || h.closing
    ensures var h' := Do(h, p, limits);
      && (h'.lost || h'.closing)
      && h'.enqueued == h.enqueued && Suffix(h'.pending, h.pending) && Suffix(Ordinary(h'.chain), Ordinary(h.chain))
  {
    PendingShrinks(h, p, limits);
    LineShrinks(h, p, limits);
    FlagsNext(h, p, limits);
  }

  lemma {:induction false} TakesNothingMore(h: Handle, ps: seq<Piece>, limits: Limits)
    requires h.lost || h.closing
    ensures var h' := DoAll(h, ps, limits);
      && (h'.lost || h'.closing)
      && h'.enqueued == h.enqueued && Suffix(h'.pending, h.pending) && Suffix(Ordinary(h'.chain), Ordinary(h.chain))
  {
    if ps != [] {
      var past, p := ps[..|ps| - 1], ps[|ps| - 1];
      var h1 := DoAll(h, past, limits);
      TakesNothingMore(h, past, limits);
      PieceTakesNothing(h1, p, limits);
      SuffixTransitive(Do(h1, p, limits).pending, h1.pending, h.pending);
      SuffixTransitive(Ordinary(Do(h1, p, limits).chain), Ordinary(h1.chain), Ordinary(h.chain));
    }
  }

  /** A handle that knows of the loss sends no further request: what it waits for, it was waiting for. */
  lemma {:induction false} LostSendsNothing(h: Handle, p: Piece, limits: Limits)
    requires h.lost
    ensures var h' := Do(h, p, limits);
      h'.lost && (h'.stage == h.stage || h'.stage.Idle? || h'.stage.Draining?)
  {
  }

  // ---------------------------------------------------------------------
  // One operation after the other
  // ---------------------------------------------------------------------

  /** What the caller of this piece was promised. */
  function Promised(h: Handle, p: Piece): seq<Goal> {
    match p
    case DoFlush => if h.closing || h.lost then [] else [FlushGoal(|h.enqueued|)]
    case DoAppend(events) => if h.closing || h.lost then [] else [AppendGoal(events)]
    case DoClose => if h.closing then [] else [CloseGoal]
    case _ => []
  }

  /** What begins with this piece, seen at the stage. */
  function Begun(h: Handle, p: Piece, limits: Limits): seq<Goal> {
    if h.stage.Idle? && Do(h, p, limits).stage.Draining? then [Do(h, p, limits).stage.goal] else []
  }

  function AllPromised(base: nat, ps: seq<Piece>, limits: Limits): seq<Goal> {
    if ps == [] then []
    else AllPromised(base, ps[..|ps| - 1], limits) + Promised(After(base, ps[..|ps| - 1], limits), ps[|ps| - 1])
  }

  function AllBegun(base: nat, ps: seq<Piece>, limits: Limits): seq<Goal> {
    if ps == [] then []
    else AllBegun(base, ps[..|ps| - 1], limits) + Begun(After(base, ps[..|ps| - 1], limits), ps[|ps| - 1], limits)
  }

  lemma {:induction false} CallNext(h: Handle, p: Piece, limits: Limits)
    requires !p.DoBegin?
    ensures Do(h, p, limits).chain == h.chain + Promised(h, p) && Begun(h, p, limits) == []
  {
  }

  lemma {:induction false} ChainNext(h: Handle, p: Piece, limits: Limits)
    ensures h.chain + Promised(h, p) == Begun(h, p, limits) + Do(h, p, limits).chain
  {
    if !p.DoBegin? { CallNext(h, p, limits); }
  }

  lemma {:induction false} Regroup(a: seq<Goal>, b: seq<Goal>, c: seq<Goal>)
    ensures (a + b) + c == a + (b + c)
  {
  }

  /** Operations begin in the order of the calls, each once: what was promised is what has begun, followed by
      the chain. */
  lemma {:induction false} BegunInOrder(base: nat, ps: seq<Piece>, limits: Limits)
    ensures AllPromised(base, ps, limits) == AllBegun(base, ps, limits) + After(base, ps, limits).chain
  {
    if ps != [] {
      var past, p := ps[..|ps| - 1], ps[|ps| - 1];
      var h := After(base, past, limits);
      BegunInOrder(base, past, limits);
      ChainNext(h, p, limits);
      Regroup(AllBegun(base, past, limits), h.chain, Promised(h, p));
      Regroup(AllBegun(base, past, limits), Begun(h, p, limits), Do(h, p, limits).chain);
    }
  }

  /** A flush only ends well when its own confirmation comes back. Every other end is a rejection: a request
      failed, the handle knows of a loss, an unexpected number was acknowledged, or the queue has a gap. */
  lemma {:induction false} FlushEnds(h: Handle, mark: nat, p: Piece, limits: Limits)
    requires h.stage == Draining(FlushGoal(mark)) || h.stage == AwaitConfirm(FlushGoal(mark))
      || (h.stage.AwaitAck? && h.stage.goal == FlushGoal(mark) && !h.stage.direct)
    requires Do(h, p, limits).stage == Idle
    ensures || (p == DoConfirmFlush && h.stage == AwaitConfirm(FlushGoal(mark)))
            || p.DoFail?
            || (p == DoDrain && (h.lost || !Contiguous(FirstBatch(h, limits), h.nextSeq)))
            || (p.DoAcknowledge? && h.stage.AwaitAck? && p.next != h.nextSeq + |h.stage.batch|)
  {
  }

  /** A request that is not for queued events is for those of an append. */
  predicate DirectOk(h: Handle) {
    h.stage.AwaitAck? && h.stage.direct ==> h.stage.goal == AppendGoal(h.stage.batch)
  }

  lemma {:induction false} DirectIs(base: nat, ps: seq<Piece>, limits: Limits)
    ensures DirectOk(After(base, ps, limits))
  {
    if ps != [] {
      DirectIs(base, ps[..|ps| - 1], limits);
      DirectNext(After(base, ps[..|ps| - 1], limits), ps[|ps| - 1], limits);
    }
  }

  lemma {:induction false} DirectNext(h: Handle, p: Piece, limits: Limits)
    requires DirectOk(h)
    ensures DirectOk(Do(h, p, limits))
  {
  }

  predicate ForAppend(s: Stage, events: Batch) {
    match s
    case Draining(goal) => goal == AppendGoal(events)
    case AwaitAck(goal, _, _) => goal == AppendGoal(events)
    case _ => false
  }

  /** What the operation at the head sends next. */
  function NextBatch(h: Handle, events: Batch, limits: Limits): Batch {
    if h.pending == [] then events else FirstBatch(h, limits)
  }

  /** After every run: an append only ends well when its own events are acknowledged, right behind what was
      acknowledged before, or if it has none. Every other end is a rejection. */
  lemma {:induction false} AppendEnds(base: nat, ps: seq<Piece>, events: Batch, p: Piece, limits: Limits)
    requires ForAppend(After(base, ps, limits).stage, events) && Do(After(base, ps, limits), p, limits).stage == Idle
    ensures var h := After(base, ps, limits);
      || (&& p == DoAcknowledge(h.nextSeq + |events|) && h.stage == AwaitAck(AppendGoal(events), events, true)
          && Do(h, p, limits).acked == h.acked + Entries(events, false))
      || (p == DoDrain && events == [] && h.pending == [] && !h.lost)
      || p.DoFail?
      || (p == DoDrain && (h.lost || !Contiguous(NextBatch(h, events, limits), h.nextSeq)))
      || (p.DoAcknowledge? && h.stage.AwaitAck? && p.next != h.nextSeq + |h.stage.batch|)
  {
    DirectIs(base, ps, limits);
  }

  lemma {:induction false} OnlyDrainSends(h: Handle, p: Piece, limits: Limits)
    requires Do(h, p, limits).stage.AwaitAck? && Do(h, p, limits).stage != h.stage
    ensures p == DoDrain && h.stage.Draining? && !h.lost
  {
  }

  /** Every request for new events is for the head of the queue, as many as a batch may hold, or, once the queue
      is empty, for those of the append that is running; it continues what was acknowledged. */
  lemma {:induction false} SendsInOrder(h: Handle, p: Piece, limits: Limits)
    requires Do(h, p, limits).stage.AwaitAck? && Do(h, p, limits).stage != h.stage && limits.batchSize >= 1
    ensures var s := Do(h, p, limits).stage;
      && s.batch != [] && Contiguous(s.batch, h.nextSeq) && !h.lost
      && (!s.direct ==> s.batch <= h.pending && (|s.batch| == limits.batchSize || s.batch == h.pending)
                        && |s.batch| <= limits.batchSize)
      && (s.direct ==> h.pending == [] && h.stage == Draining(AppendGoal(s.batch)))
  {
    OnlyDrainSends(h, p, limits);
    assert FirstBatch(h, limits) <= h.pending;
  }

  // ---- closing ----

  function Closes(chain: seq<Goal>): nat {
    if chain == [] then 0 else (if chain[0].CloseGoal? then 1 else 0) + Closes(chain[1..])
  }

  predicate IsClosing(s: Stage) {
    match s
    case Idle => false
    case Draining(goal) => goal.CloseGoal?
    case AwaitAck(goal, _, _) => goal.CloseGoal?
    case AwaitConfirm(goal) => goal.CloseGoal?
    case AwaitRelease => true
  }

  lemma {:induction false} ClosesNext(chain: seq<Goal>, g: Goal)
    ensures Closes(chain + [g]) == Closes(chain) + if g.CloseGoal? then 1 else 0
  {
    if chain != [] {
      ClosesNext(chain[1..], g);
      assert (chain + [g])[1..] == chain[1..] + [g];
    } else {
      assert chain + [g] == [g] && [g][1..] == [];
    }
  }

  /** A close is at one place: not called, waiting in the chain, under way, or done and the handle released. */
  predicate CloseConserved(h: Handle) {
    && (h.stage.AwaitAck? && h.stage.direct ==> h.stage.goal.AppendGoal?)
    && Closes(h.chain) + (if IsClosing(h.stage) then 1 else 0) + (if h.released then 1 else 0)
      == if h.closing then 1 else 0
  }

  lemma {:induction false} StepConservesClose(h: Handle, p: Piece, limits: Limits)
    requires CloseConserved(h) && !p.DoFlush? && !p.DoAppend? && !p.DoClose?
    ensures CloseConserved(Do(h, p, limits))
  {
  }

  lemma {:induction false} PieceConservesClose(h: Handle, p: Piece, limits: Limits)
    requires CloseConserved(h)
    ensures CloseConserved(Do(h, p, limits))
  {
    match p
    case DoFlush => ClosesNext(h.chain, FlushGoal(|h.enqueued|));
    case DoAppend(events) => ClosesNext(h.chain, AppendGoal(events));
    case DoClose => ClosesNext(h.chain, CloseGoal);
    case _ => StepConservesClose(h, p, limits);
  }

  /** A close only ends well when its release is confirmed, and the release is only requested when the flush before
      it was; every other end is a rejection, and releases the handle all the same. */
  lemma {:induction false} CloseEnds(h: Handle, p: Piece, limits: Limits)
    ensures Do(h, p, limits).stage == AwaitRelease && h.stage != AwaitRelease ==>
      p == DoConfirmFlush && h.stage == AwaitConfirm(CloseGoal) && !h.lost
    ensures Do(h, p, limits).released && !h.released ==>
      || (p == DoConfirmRelease && h.stage == AwaitRelease)
      || p.DoFail?
      || (p == DoDrain && (h.lost || !Contiguous(FirstBatch(h, limits), h.nextSeq)))
      || (p == DoConfirmFlush && h.lost)
      || (p.DoAcknowledge? && h.stage.AwaitAck? && p.next != h.nextSeq + |h.stage.batch|)
  {
  }

  /** In every run: a handle is released iff it was closed and its close operation has ended, well or badly. */
  lemma {:induction false} ReleasedIff(base: nat, ps: seq<Piece>, limits: Limits)
    ensures CloseConserved(After(base, ps, limits))
    ensures After(base, ps, limits).released <==>
      CloseCalled(ps) && Closes(After(base, ps, limits).chain) == 0 && !IsClosing(After(base, ps, limits).stage)
  {
    FlagsAre(base, ps, limits);
    if ps != [] {
      ReleasedIff(base, ps[..|ps| - 1], limits);
      PieceConservesClose(After(base, ps[..|ps| - 1], limits), ps[|ps| - 1], limits);
    }
  }

  // ---------------------------------------------------------------------
  // A handle without failures drains completely
  // ---------------------------------------------------------------------

  lemma {:induction false} DoConcat(h: Handle, a: seq<Piece>, b: seq<Piece>, limits: Limits)
    ensures DoAll(h, a + b, limits) == DoAll(DoAll(h, a, limits), b, limits)
    decreases |b|
  {
    if b == [] {
      assert a + b == a;
    } else {
      assert (a + b)[..|a + b| - 1] == a + b[..|b| - 1];
      DoConcat(h, a, b[..|b| - 1], limits);
    }
  }

  lemma {:induction false} TwoPieces(h: Handle, p: Piece, q: Piece, limits: Limits)
    ensures DoAll(h, [p, q], limits) == Do(Do(h, p, limits), q, limits)
  {
    assert [p, q][..1] == [p] && [p][..0] == [];
    assert DoAll(h, [p], limits) == Do(DoAll(h, [], limits), p, limits);
  }

  lemma {:induction false} ContiguousParts(s: seq<Event>, n: nat, k: nat)
    requires Contiguous(s, n) && k <= |s|
    ensures Contiguous(s[..k], n) && Contiguous(s[k..], n + k)
  {
    forall i: nat | i < k ensures SeqAt(s[..k], i) == n + i { assert SeqAt(s, i) == n + i; }
    forall i: nat | i < |s| - k ensures SeqAt(s[k..], i) == n + k + i { assert SeqAt(s, k + i) == n + (k + i); }
  }

  lemma {:induction false} SendOne(h: Handle, limits: Limits)
    requires h.stage.Draining? && !h.lost && h.pending != [] && Contiguous(FirstBatch(h, limits), h.nextSeq)
    ensures Do(h, DoDrain, limits) == h.(stage := AwaitAck(h.stage.goal, FirstBatch(h, limits), false))
  {
  }

  lemma {:induction false} BatchIsFirst(h: Handle, limits: Limits)
    requires limits.batchSize >= 1 && h.pending != []
    ensures 0 < |FirstBatch(h, limits)| <= |h.pending| && FirstBatch(h, limits) == h.pending[..|FirstBatch(h, limits)|]
  {
  }

  /** The handle after one batch has been sent and acknowledged. */
  lemma {:induction false} OneRound(h: Handle, limits: Limits) returns (h': Handle)
    requires limits.batchSize >= 1 && h.stage.Draining? && !h.lost
    requires h.pending != [] && Contiguous(h.pending, h.nextSeq)
    ensures h' == DoAll(h, [DoDrain, DoAcknowledge(h.nextSeq + |FirstBatch(h, limits)|)], limits)
    ensures h'.stage == h.stage && !h'.lost && |h'.pending| < |h.pending|
    ensures Contiguous(h'.pending, h'.nextSeq) && h'.nextSeq + |h'.pending| == h.nextSeq + |h.pending|
  {
    var b := FirstBatch(h, limits);
    BatchIsFirst(h, limits);
    ContiguousParts(h.pending, h.nextSeq, |b|);
    SendOne(h, limits);
    TwoPieces(h, DoDrain, DoAcknowledge(h.nextSeq + |b|), limits);
    h' := Acknowledge(h.(stage := AwaitAck(h.stage.goal, b, false)), h.nextSeq + |b|);
  }

  /** Whatever the batch size: if the backend answers and ownership holds, a flush or close that has begun
      sends the whole queue and gets as far as its confirmation. */
  lemma {:induction false} DrainsCompletely(h: Handle, limits: Limits) returns (ps: seq<Piece>)
    requires limits.batchSize >= 1 && h.stage.Draining? && !h.stage.goal.AppendGoal? && !h.lost
    requires Contiguous(h.pending, h.nextSeq)
    ensures var h' := DoAll(h, ps, limits);
      h'.stage == AwaitConfirm(h.stage.goal) && h'.pending == [] && h'.nextSeq == h.nextSeq + |h.pending|
    decreases |h.pending|
  {
    if h.pending == [] {
      ps := [DoDrain];
      assert ps[..0] == [] && DoAll(h, [], limits) == h;
    } else {
      var h1 := OneRound(h, limits);
      var rest := DrainsCompletely(h1, limits);
      var round := [DoDrain, DoAcknowledge(h.nextSeq + |FirstBatch(h, limits)|)];
      ps := round + rest;
      DoConcat(h, round, rest, limits);
    }
  }
}
