/**
 `CyreneSessionHandle`: a bounded volatile queue drained in batches, across
 awaits, into acknowledged events. The code between two awaits is one atomic
 step; the steps below are those pieces, and a run is any interleaving of them.
 */
module SessionHandle {
  import opened Options
  import opened SessionStore

  /** What a queued operation is for. `mark` is how many events had been enqueued at the call. */
  datatype Goal = FlushGoal(mark: nat) | AppendGoal(events: Batch) | CloseGoal

  /** Where the operation at the head of the promise chain is. */
  datatype Stage =
    | Idle
    | Draining(goal: Goal)                                // at the head of the `drain` loop
    | AwaitAck(goal: Goal, batch: Batch, direct: bool)    // an append request is in flight
    | AwaitConfirm(goal: Goal)                            // the `flush` request is in flight
    | AwaitRelease                                        // the `release` request is in flight

  datatype Failure = Closed | Lost | Backlog

  /** An acknowledged event: through the queue, or handed to `append` directly. */
  datatype Entry = Entry(event: Event, queued: bool)

  datatype Handle = Handle(
    base: nat, nextSeq: nat, pending: seq<Event>, lost: bool, closing: bool, released: bool,
    chain: seq<Goal>, stage: Stage,
    enqueued: seq<Event>, acked: seq<Entry>)

  datatype Limits = Limits(batchSize: nat, maxPending: nat)

  function Opened(nextSeq: nat): Handle {
    Handle(nextSeq, nextSeq, [], false, false, false, [], Idle, [], [])
  }

  // ---- calls ----

  function EnqueueEvent(h: Handle, e: Event, limits: Limits): (Handle, Option<Failure>) {
    if h.closing then (h, Some(Closed))
    else if h.lost then (h, Some(Lost))
    else if |h.pending| >= limits.maxPending then (h, Some(Backlog))
    else (h.(pending := h.pending + [e], enqueued := h.enqueued + [e]), None)
  }

  function CallFlush(h: Handle): (Handle, Option<Failure>) {
    if h.closing then (h, Some(Closed))
    else if h.lost then (h, Some(Lost))
    else (h.(chain := h.chain + [FlushGoal(|h.enqueued|)]), None)
  }

  function CallAppend(h: Handle, events: Batch): (Handle, Option<Failure>) {
    if h.closing then (h, Some(Closed))
    else if h.lost then (h, Some(Lost))
    else (h.(chain := h.chain + [AppendGoal(events)]), None)
  }

  function CallClose(h: Handle): Handle {
    if h.closing then h else h.(closing := true, chain := h.chain + [CloseGoal])
  }

  // ---- pieces of the chained operations ----

  function BeginNext(h: Handle): Handle {
    if h.stage == Idle && h.chain != [] then h.(stage := Draining(h.chain[0]), chain := h.chain[1..]) else h
  }

  /** The operation rejects; a closing handle is released from the registry all the same. */
  function Reject(h: Handle): Handle {
    match h.stage
    case Draining(CloseGoal) => h.(stage := Idle, released := true)
    case AwaitAck(CloseGoal, _, _) => h.(stage := Idle, released := true)
    case AwaitConfirm(CloseGoal) => h.(stage := Idle, released := true)
    case AwaitRelease => h.(stage := Idle, released := true)
    case _ => h.(stage := Idle)
  }

  function FirstBatch(h: Handle, limits: Limits): Batch {
    if |h.pending| <= limits.batchSize then h.pending else h.pending[..limits.batchSize]
  }

  /** One pass through the head of the `drain` loop, up to the next await. */
  function DrainStep(h: Handle, limits: Limits): Handle {
    if !h.stage.Draining? then h else
    var goal := h.stage.goal;
    if h.lost then Reject(h)
    else if h.pending != [] then
      var batch := FirstBatch(h, limits);
      if !Contiguous(batch, h.nextSeq) then Reject(h) else h.(stage := AwaitAck(goal, batch, false))
    else
      match goal
      case AppendGoal(events) =>
        if !Contiguous(events, h.nextSeq) then Reject(h)
        else if events == [] then h.(stage := Idle)
        else h.(stage := AwaitAck(goal, events, true))
      case _ => h.(stage := AwaitConfirm(goal))
  }

  function Entries(b: Batch, queued: bool): (r: seq<Entry>)
    ensures |r| == |b|
  {
    if b == [] then [] else [Entry(b[0], queued)] + Entries(b[1..], queued)
  }

  /** The append request was answered with `next`. */
  function Acknowledge(h: Handle, next: nat): Handle {
    if !h.stage.AwaitAck? then h
    else if next != h.nextSeq + |h.stage.batch| then Reject(h)
    else
      var h' := h.(nextSeq := next, acked := h.acked + Entries(h.stage.batch, !h.stage.direct));
      if h.stage.direct then h'.(stage := Idle)
      else if |h.stage.batch| <= |h.pending| then
        h'.(pending := h.pending[|h.stage.batch|..], stage := Draining(h.stage.goal))
      else h'.(pending := [], stage := Draining(h.stage.goal))
  }

  /** A request failed; `fenced` when the server said that ownership is lost. */
  function Fail(h: Handle, fenced: bool): Handle {
    if h.stage == Idle then h else Reject(h.(lost := h.lost || fenced))
  }

  function ConfirmFlush(h: Handle): Handle {
    match h.stage
    case AwaitConfirm(CloseGoal) => if h.lost then Reject(h) else h.(stage := AwaitRelease)
    case AwaitConfirm(_) => h.(stage := Idle)
    case _ => h
  }

  function ConfirmRelease(h: Handle): Handle {
    if h.stage == AwaitRelease then h.(stage := Idle, released := true) else h
  }

  /** A heartbeat outside the chain learned that ownership is lost. */
  function HeartbeatLost(h: Handle): Handle {
    h.(lost := true)
  }

  // ---------------------------------------------------------------------
  // Invariant
  // ---------------------------------------------------------------------

  function EventsOf(a: seq<Entry>): (r: seq<Event>)
    ensures |r| == |a|
  {
    if a == [] then [] else [a[0].event] + EventsOf(a[1..])
  }

  /** The acknowledged events that went through the queue. */
  function Drained(a: seq<Entry>): seq<Event> {
    if a == [] then [] else (if a[0].queued then [a[0].event] else []) + Drained(a[1..])
  }

  ghost predicate StageOk(h: Handle) {
    match h.stage
    case AwaitAck(_, batch, direct) => batch != [] && Contiguous(batch, h.nextSeq) && (!direct ==> batch <= h.pending)
    case AwaitConfirm(FlushGoal(mark)) => mark <= |Drained(h.acked)|
    case Draining(FlushGoal(mark)) => mark <= |h.enqueued|
    case _ => true
  }

  ghost predicate StageMarks(h: Handle) {
    match h.stage
    case AwaitAck(FlushGoal(mark), _, _) => mark <= |h.enqueued|
    case _ => true
  }

  ghost predicate ChainOk(h: Handle) {
    forall i :: 0 <= i < |h.chain| && h.chain[i].FlushGoal? ==> h.chain[i].mark <= |h.enqueued|
  }

  /** Nothing enqueued is lost, reordered or duplicated, and acknowledged numbers have no gap. */
  ghost predicate HistoryOk(h: Handle, limits: Limits) {
    && h.enqueued == Drained(h.acked) + h.pending
    && |h.pending| <= limits.maxPending
    && h.nextSeq == h.base + |h.acked|
    && Contiguous(EventsOf(h.acked), h.base)
  }

  ghost predicate HandleInv(h: Handle, limits: Limits) {
    HistoryOk(h, limits) && StageOk(h) && StageMarks(h) && ChainOk(h)
  }

  lemma {:induction false} EntriesOf(b: Batch, queued: bool)
    ensures EventsOf(Entries(b, queued)) == b
    ensures Drained(Entries(b, queued)) == if queued then b else []
  {
    if b != [] {
      EntriesOf(b[1..], queued);
      assert Entries(b, queued)[1..] == Entries(b[1..], queued);
    }
  }

  lemma {:induction false} EventsConcat(a: seq<Entry>, b: seq<Entry>)
    ensures EventsOf(a + b) == EventsOf(a) + EventsOf(b)
  {
    if a == [] {
      assert a + b == b;
    } else {
      EventsConcat(a[1..], b);
      assert (a + b)[1..] == a[1..] + b;
      assert [a[0].event] + (EventsOf(a[1..]) + EventsOf(b)) == ([a[0].event] + EventsOf(a[1..])) + EventsOf(b);
    }
  }

  lemma {:induction false} DrainedConcat(a: seq<Entry>, b: seq<Entry>)
    ensures Drained(a + b) == Drained(a) + Drained(b)
  {
    if a == [] {
      assert a + b == b;
    } else {
      DrainedConcat(a[1..], b);
      assert (a + b)[1..] == a[1..] + b;
      var x := if a[0].queued then [a[0].event] else [];
      assert x + (Drained(a[1..]) + Drained(b)) == (x + Drained(a[1..])) + Drained(b);
    }
  }

  lemma {:induction false} AcknowledgedEvents(h: Handle, b: Batch, queued: bool)
    requires Contiguous(EventsOf(h.acked), h.base) && Contiguous(b, h.base + |h.acked|)
    ensures var a := h.acked + Entries(b, queued);
      && EventsOf(a) == EventsOf(h.acked) + b
      && Drained(a) == Drained(h.acked) + (if queued then b else [])
      && Contiguous(EventsOf(a), h.base)
  {
    EntriesOf(b, queued);
    EventsConcat(h.acked, Entries(b, queued));
    DrainedConcat(h.acked, Entries(b, queued));
    ContiguousConcat(EventsOf(h.acked), b, h.base);
  }

  /** The handle after an acknowledgement with the expected number. */
  function Accepted(h: Handle): Handle
    requires h.stage.AwaitAck? && (!h.stage.direct ==> |h.stage.batch| <= |h.pending|)
  {
    var b := h.stage.batch;
    h.(nextSeq := h.nextSeq + |b|, acked := h.acked + Entries(b, !h.stage.direct),
       pending := if h.stage.direct then h.pending else h.pending[|b|..],
       stage := if h.stage.direct then Idle else Draining(h.stage.goal))
  }

  lemma {:induction false} AcceptedKeeps(h: Handle, limits: Limits)
    requires HandleInv(h, limits) && h.stage.AwaitAck?
    ensures HandleInv(Accepted(h), limits)
    ensures EventsOf(Accepted(h).acked) == EventsOf(h.acked) + h.stage.batch
    ensures if h.stage.direct then Accepted(h).pending == h.pending
      else h.stage.batch + Accepted(h).pending == h.pending
  {
    AcknowledgedEvents(h, h.stage.batch, !h.stage.direct);
    if !h.stage.direct { SpliceOff(Drained(h.acked), h.stage.batch, h.pending); }
  }

  lemma {:induction false} AcknowledgeIs(h: Handle, next: nat)
    requires h.stage.AwaitAck? && (!h.stage.direct ==> |h.stage.batch| <= |h.pending|)
    ensures Acknowledge(h, next) == if next == h.nextSeq + |h.stage.batch| then Accepted(h) else Reject(h)
  {
  }

  /** The acknowledgement removes exactly the acknowledged batch, whatever was enqueued meanwhile. */
  lemma {:induction false} AcknowledgeKeeps(h: Handle, next: nat, limits: Limits)
    requires HandleInv(h, limits)
    ensures HandleInv(Acknowledge(h, next), limits)
    ensures h.stage.AwaitAck? && next == h.nextSeq + |h.stage.batch| ==>
      && EventsOf(Acknowledge(h, next).acked) == EventsOf(h.acked) + h.stage.batch
      && (if h.stage.direct then Acknowledge(h, next).pending == h.pending
          else h.stage.batch + Acknowledge(h, next).pending == h.pending)
  {
    if h.stage.AwaitAck? {
      AcknowledgeIs(h, next);
      AcceptedKeeps(h, limits);
      RejectKeeps(h, limits);
    }
  }

  lemma {:induction false} SpliceOff(d: seq<Event>, b: Batch, pending: seq<Event>)
    requires b <= pending
    ensures b + pending[|b|..] == pending
    ensures d + pending == (d + b) + pending[|b|..]
  {
  }

  lemma {:induction false} EnqueueKeeps(h: Handle, e: Event, limits: Limits)
    requires HandleInv(h, limits)
    ensures HandleInv(EnqueueEvent(h, e, limits).0, limits)
  {
    var h' := EnqueueEvent(h, e, limits).0;
    assert Drained(h.acked) + (h.pending + [e]) == (Drained(h.acked) + h.pending) + [e];
    if h.stage.AwaitAck? && !h.stage.direct && h' != h {
      assert h.stage.batch <= h.pending && h'.pending[..|h.stage.batch|] == h.pending[..|h.stage.batch|];
    }
  }

  lemma {:induction false} SendKeeps(h: Handle, batch: Batch, direct: bool, limits: Limits)
    requires HandleInv(h, limits) && h.stage.Draining?
    requires batch != [] && Contiguous(batch, h.nextSeq) && (!direct ==> batch <= h.pending)
    ensures HandleInv(h.(stage := AwaitAck(h.stage.goal, batch, direct)), limits)
  {
  }

  lemma {:induction false} DrainedKeeps(h: Handle, limits: Limits)
    requires HandleInv(h, limits) && h.stage.Draining? && h.pending == []
    ensures HandleInv(h.(stage := AwaitConfirm(h.stage.goal)), limits)
    ensures HandleInv(h.(stage := Idle), limits)
  {
    assert Drained(h.acked) + [] == Drained(h.acked);
  }

  lemma {:induction false} DrainStepKeeps(h: Handle, limits: Limits)
    requires HandleInv(h, limits) && limits.batchSize >= 1
    ensures HandleInv(DrainStep(h, limits), limits)
  {
    if h.stage.Draining? {
      RejectKeeps(h, limits);
      if h.pending != [] {
        var batch := FirstBatch(h, limits);
        if Contiguous(batch, h.nextSeq) { SendKeeps(h, batch, false, limits); }
      } else {
        DrainedKeeps(h, limits);
        if h.stage.goal.AppendGoal? && h.stage.goal.events != [] && Contiguous(h.stage.goal.events, h.nextSeq) {
          SendKeeps(h, h.stage.goal.events, true, limits);
        }
      }
    }
  }

  lemma {:induction false} CallsKeep(h: Handle, events: Batch, limits: Limits)
    requires HandleInv(h, limits)
    ensures HandleInv(CallFlush(h).0, limits)
    ensures HandleInv(CallAppend(h, events).0, limits)
    ensures HandleInv(CallClose(h), limits)
  {
  }

  lemma {:induction false} BeginKeeps(h: Handle, limits: Limits)
    requires HandleInv(h, limits)
    ensures HandleInv(BeginNext(h), limits)
  {
  }

  lemma {:induction false} RejectKeeps(h: Handle, limits: Limits)
    requires HistoryOk(h, limits) && ChainOk(h)
    ensures HandleInv(Reject(h), limits)
  {
    var h' := Reject(h);
    assert h' == h.(stage := Idle, released := h'.released);
  }

  lemma {:induction false} ConfirmKeeps(h: Handle, limits: Limits)
    requires HandleInv(h, limits)
    ensures HandleInv(ConfirmFlush(h), limits)
  {
    if h.stage.AwaitConfirm? && h.stage.goal.CloseGoal? && h.lost {
      RejectKeeps(h, limits);
    } else {
      var h' := ConfirmFlush(h);
      assert h' == h.(stage := h'.stage);
    }
  }

  /** One atomic piece of handle code. */
  datatype Piece =
    | DoEnqueue(event: Event) | DoFlush | DoAppend(events: Batch) | DoClose
    | DoBegin | DoDrain | DoAcknowledge(next: nat) | DoFail(fenced: bool)
    | DoConfirmFlush | DoConfirmRelease | DoHeartbeatLost

  function Do(h: Handle, p: Piece, limits: Limits): Handle {
    match p
    case DoEnqueue(e) => EnqueueEvent(h, e, limits).0
    case DoFlush => CallFlush(h).0
    case DoAppend(events) => CallAppend(h, events).0
    case DoClose => CallClose(h)
    case DoBegin => BeginNext(h)
    case DoDrain => DrainStep(h, limits)
    case DoAcknowledge(next) => Acknowledge(h, next)
    case DoFail(fenced) => Fail(h, fenced)
    case DoConfirmFlush => ConfirmFlush(h)
    case DoConfirmRelease => ConfirmRelease(h)
    case DoHeartbeatLost => HeartbeatLost(h)
  }

  lemma {:induction false} PieceKeeps(h: Handle, p: Piece, limits: Limits)
    requires HandleInv(h, limits) && limits.batchSize >= 1
    ensures HandleInv(Do(h, p, limits), limits)
  {
    match p
    case DoEnqueue(e) => EnqueueKeeps(h, e, limits);
    case DoFlush => CallsKeep(h, [], limits);
    case DoAppend(events) => CallsKeep(h, events, limits);
    case DoClose => CallsKeep(h, [], limits);
    case DoBegin => BeginKeeps(h, limits);
    case DoDrain => DrainStepKeeps(h, limits);
    case DoAcknowledge(next) => AcknowledgeKeeps(h, next, limits);
    case DoFail(fenced) => RejectKeeps(h.(lost := h.lost || fenced), limits);
    case DoConfirmFlush => ConfirmKeeps(h, limits);
    case DoConfirmRelease =>
    case DoHeartbeatLost =>
  }

  function DoAll(h: Handle, ps: seq<Piece>, limits: Limits): Handle {
    if ps == [] then h else Do(DoAll(h, ps[..|ps| - 1], limits), ps[|ps| - 1], limits)
  }

  /** Under every interleaving of calls, awaits, replies and failures: what was drained and
      acknowledged, followed by what is pending, is exactly what was enqueued; acknowledged sequence
      numbers are contiguous; the queue stays within its limit. */
  lemma {:induction false} EveryInterleaving(base: nat, ps: seq<Piece>, limits: Limits)
    requires limits.batchSize >= 1
    ensures HandleInv(DoAll(Opened(base), ps, limits), limits)
  {
    if ps == [] {
      assert Drained([]) + [] == [];
    } else {
      EveryInterleaving(base, ps[..|ps| - 1], limits);
      PieceKeeps(DoAll(Opened(base), ps[..|ps| - 1], limits), ps[|ps| - 1], limits);
    }
  }

  /** A flush that is confirmed implies that everything enqueued before it was called is acknowledged,
      in order, and so does a gated tool start behind it. */
  lemma {:induction false} FlushCovers(h: Handle, limits: Limits, mark: nat)
    requires HandleInv(h, limits) && h.stage == AwaitConfirm(FlushGoal(mark))
    ensures mark <= |Drained(h.acked)| <= |h.enqueued|
    ensures Drained(h.acked)[..mark] == h.enqueued[..mark]
  {
    assert (Drained(h.acked) + h.pending)[..mark] == Drained(h.acked)[..mark];
  }

  // ---------------------------------------------------------------------
  // The object
  // ---------------------------------------------------------------------

  class CyreneSessionHandle {
    const limits: Limits
    var nextSeq: nat
    var pending: seq<Event>
    var lost: bool
    var closing: bool
    var released: bool
    var chain: seq<Goal>
    var stage: Stage
    var enqueuedCount: nat
    ghost const base: nat
    ghost var enqueued: seq<Event>
    ghost var acked: seq<Entry>

    ghost function View(): Handle
      reads this
    {
      Handle(base, nextSeq, pending, lost, closing, released, chain, stage, enqueued, acked)
    }

    ghost predicate Valid()
      reads this
    {
      HandleInv(View(), limits) && limits.batchSize >= 1 && enqueuedCount == |enqueued|
    }

    constructor (remoteNextSeq: nat, configured: Limits)
      requires configured.batchSize >= 1
      ensures Valid() && View() == Opened(remoteNextSeq) && limits == configured
    {
      EveryInterleaving(remoteNextSeq, [], configured);
      limits, base, nextSeq := configured, remoteNextSeq, remoteNextSeq;
      pending, lost, closing, released, chain, stage := [], false, false, false, [], Idle;
      enqueuedCount, enqueued, acked := 0, [], [];
    }

    /** Route a committed live event into the queue. */
    method Enqueue(event: Event) returns (failure: Option<Failure>)
      requires Valid()
      modifies this
      ensures Valid() && (View(), failure) == EnqueueEvent(old(View()), event, limits)
    {
      EnqueueKeeps(View(), event, limits);
      if closing { return Some(Closed); }
      if lost { return Some(Lost); }
      if |pending| >= limits.maxPending { return Some(Backlog); }
      pending := pending + [event];
      enqueuedCount, enqueued := enqueuedCount + 1, enqueued + [event];
      return None;
    }

    method Flush() returns (failure: Option<Failure>)
      requires Valid()
      modifies this`chain
      ensures Valid() && (View(), failure) == CallFlush(old(View()))
    {
      CallsKeep(View(), [], limits);
      if closing { return Some(Closed); }
      if lost { return Some(Lost); }
      chain := chain + [FlushGoal(enqueuedCount)];
      return None;
    }

    method Append(events: Batch) returns (failure: Option<Failure>)
      requires Valid()
      modifies this`chain
      ensures Valid() && (View(), failure) == CallAppend(old(View()), events)
    {
      CallsKeep(View(), events, limits);
      if closing { return Some(Closed); }
      if lost { return Some(Lost); }
      chain := chain + [AppendGoal(events)];
      return None;
    }

    method Close()
      requires Valid()
      modifies this`closing, this`chain
      ensures Valid() && View() == CallClose(old(View()))
    {
      CallsKeep(View(), [], limits);
      if !closing {
        closing := true;
        chain := chain + [CloseGoal];
      }
    }

    /** The next operation of the promise chain starts. */
    method BeginOperation()
      requires Valid()
      modifies this`chain, this`stage
      ensures Valid() && View() == BeginNext(old(View()))
    {
      BeginKeeps(View(), limits);
      if stage == Idle && chain != [] {
        stage := Draining(chain[0]);
        chain := chain[1..];
      }
    }

    method RejectOperation()
      requires HistoryOk(View(), limits) && ChainOk(View()) && stage != Idle
      modifies this`stage, this`released
      ensures HandleInv(View(), limits) && View() == Reject(old(View()))
    {
      RejectKeeps(View(), limits);
      if stage == AwaitRelease || (!stage.AwaitRelease? && stage.goal.CloseGoal?) { released := true; }
      stage := Idle;
    }

    /** From the head of the `drain` loop to the next request; the request is in `stage`. */
    method Advance()
      requires Valid() && stage.Draining?
      modifies this`stage, this`released
      ensures Valid() && View() == DrainStep(old(View()), limits)
    {
      DrainStepKeeps(View(), limits);
      var next := NextStage();
      if next.None? { RejectOperation(); } else { stage := next.value; }
    }

    /** Where the loop gets to before the next await; nothing if the operation rejects. */
    method NextStage() returns (next: Option<Stage>)
      requires Valid() && stage.Draining?
      ensures DrainStep(View(), limits) == if next.Some? then View().(stage := next.value) else Reject(View())
    {
      var goal := stage.goal;
      next := None;
      if lost {
      } else if pending != [] {
        var batch := if |pending| <= limits.batchSize then pending else pending[..limits.batchSize];
        if Contiguous(batch, nextSeq) { next := Some(AwaitAck(goal, batch, false)); }
      } else if goal.AppendGoal? {
        if Contiguous(goal.events, nextSeq) {
          next := Some(if goal.events == [] then Idle else AwaitAck(goal, goal.events, true));
        }
      } else {
        next := Some(AwaitConfirm(goal));
      }
    }

    /** The append request was answered: check the acknowledged prefix, then splice the batch off. */
    method OnAcknowledged(next: nat)
      requires Valid() && stage.AwaitAck?
      modifies this
      ensures Valid() && View() == Acknowledge(old(View()), next)
    {
      AcknowledgeKeeps(View(), next, limits);
      AcknowledgeIs(View(), next);
      if next != nextSeq + |stage.batch| {
        RejectOperation();
      } else {
        Accept();
      }
    }

    /** The acknowledged prefix grows by the batch in flight, which leaves the queue it came from. */
    method Accept()
      requires stage.AwaitAck? && (!stage.direct ==> |stage.batch| <= |pending|)
      modifies this`nextSeq, this`acked, this`pending, this`stage
      ensures View() == Accepted(old(View()))
    {
      var batch := stage.batch;
      nextSeq := nextSeq + |batch|;
      acked := acked + Entries(batch, !stage.direct);
      if stage.direct {
        stage := Idle;
      } else {
        pending := pending[|batch|..];
        stage := Draining(stage.goal);
      }
    }

    method OnFailed(fenced: bool)
      requires Valid() && stage != Idle
      modifies this`lost, this`stage, this`released
      ensures Valid() && View() == Fail(old(View()), fenced)
    {
      lost := lost || fenced;
      RejectOperation();
    }
  }
}
