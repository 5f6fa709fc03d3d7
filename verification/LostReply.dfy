/**
 What a lost append reply does to a handle. The backend has committed a batch
 the handle still counts as pending; the retry sends whatever the first batch of
 the queue is by then, under the digest of that batch. The promise in
 `CyreneSessionHandle.queue` that later flushes can retry retained events holds
 exactly when the retried batch is the committed one.
 */
module LostReply {
  import opened Options
  import opened SessionStore
  import opened SessionHandle
  import opened DurableLog

  /** What the backend has committed beyond the acknowledged prefix of a handle. */
  function Ahead(w: World, e: nat): seq<Event>
    requires e in w.handles && w.handles[e].nextSeq <= |w.store.log|
  {
    w.store.log[w.handles[e].nextSeq..]
  }

  /** What is committed beyond the acknowledged prefix of the current writer is one batch, with its receipt. */
  lemma {:induction false} AheadReceipt(w: World, e: nat, limits: Limits)
    requires WorldInv(w, limits) && e == w.store.epoch && e in w.handles && w.handles[e].nextSeq < |w.store.log|
    ensures Key(e, Ahead(w, e)) in w.store.receipts && StoreInv(w.store)
    ensures w.store.receipts[Key(e, Ahead(w, e))] == Receipt(Ahead(w, e), |w.store.log|)
  {
    var h := w.handles[e];
    assert HandleOk(w, e, h, limits);
    assert SeqAt(w.store.log, h.nextSeq) == h.nextSeq;
    ReceiptAt(w.store, Key(e, Ahead(w, e)), h.nextSeq);
  }

  /** The backend accepts a batch from a handle it is ahead of iff that is the very batch it committed. */
  lemma {:induction false} RetryAcceptedIff(w: World, e: nat, actor: int, retry: Batch, limits: Limits)
    requires WorldInv(w, limits) && e == w.store.epoch && e in w.handles
    requires w.handles[e].nextSeq < |w.store.log|
    requires retry != [] && Contiguous(retry, w.handles[e].nextSeq)
    requires IsWriter(w.store, actor, e, e, true)
    ensures Append(w.store, actor, e, e, true, retry, retry).Ok? <==> retry == Ahead(w, e)
    ensures retry == Ahead(w, e) ==> Append(w.store, actor, e, e, true, retry, retry) == Ok((w.store, |w.store.log|))
  {
    var n := w.handles[e].nextSeq;
    AheadReceipt(w, e, limits);
    assert SeqAt(retry, 0) == n;
    if Key(e, retry) in w.store.receipts { ReceiptAt(w.store, Key(e, retry), n); }
  }

  /** The queue's next batch is the committed one iff the queue has not grown since, or a full batch was lost. */
  lemma {:induction false} FirstBatchIs(h: Handle, c: Batch, limits: Limits)
    requires c != [] && c <= h.pending
    ensures FirstBatch(h, limits) == c <==> |c| == limits.batchSize || (|c| == |h.pending| && |c| <= limits.batchSize)
  {
    var b := FirstBatch(h, limits);
    assert b == h.pending[..|b|];
    assert c == h.pending[..|c|];
  }

  /** The handle sends its next batch. */
  lemma {:induction false} SendsFirst(w: World, w1: World, e: nat, limits: Limits)
    requires WorldInv(w, limits) && limits.batchSize >= 1 && e in w.handles
    requires var h := w.handles[e]; h.stage.Draining? && !h.lost && h.pending != [] && Contiguous(h.pending, h.nextSeq)
    requires w1 == Happen(w, Local(e, DoDrain), limits)
    ensures WorldInv(w1, limits) && w1.store == w.store && e in w1.handles
    ensures w1.handles[e].nextSeq == w.handles[e].nextSeq && w1.handles[e].stage.AwaitAck?
    ensures w1.handles[e].stage.batch == FirstBatch(w.handles[e], limits) != []
    ensures Contiguous(FirstBatch(w.handles[e], limits), w.handles[e].nextSeq)
    ensures Key(e, FirstBatch(w.handles[e], limits)) in w1.sent
  {
    var h := w.handles[e];
    var b := FirstBatch(h, limits);
    forall i: nat | i < |b| ensures SeqAt(b, i) == h.nextSeq + i { assert SeqAt(h.pending, i) == h.nextSeq + i; }
    LocalKeeps(w, e, DoDrain, limits);
  }

  lemma {:induction false} AcceptedRetry(w1: World, w2: World, w3: World, e: nat, b: Batch, n: nat, actor: int,
                                         limits: Limits)
    requires e in w1.handles && w1.handles[e].nextSeq < |w1.store.log| && w1.handles[e].stage.AwaitAck?
    requires w1.handles[e].stage.batch == b == Ahead(w1, e) && Key(e, b) in w1.sent && n == |w1.store.log|
    requires Append(w1.store, actor, e, e, true, b, b) == Ok((w1.store, n))
    requires w2 == Happen(w1, Deliver(Key(e, b), actor, true), limits)
    requires w3 == Happen(w2, Receive(Answer(e, b, n)), limits)
    ensures e in w3.handles && w3.handles[e].nextSeq == |w3.store.log|
  {
  }

  /** A refused retry leaves the handle where it was: no reply to this batch can exist. */
  lemma {:induction false} RefusedRetry(w1: World, w2: World, w3: World, e: nat, b: Batch, n: nat, actor: int,
                                        limits: Limits)
    requires WorldInv(w1, limits) && e in w1.handles && e == w1.store.epoch
    requires w1.handles[e].stage.AwaitAck? && w1.handles[e].stage.batch == b
    requires w1.handles[e].nextSeq < |w1.store.log| && b != Ahead(w1, e)
    requires Append(w1.store, actor, e, e, true, b, b).Err?
    requires w2 == Happen(w1, Deliver(Key(e, b), actor, true), limits)
    requires w3 == Happen(w2, Receive(Answer(e, b, n)), limits)
    ensures e in w3.handles && w3.handles[e].nextSeq < |w3.store.log|
  {
    if Answer(e, b, n) in w1.answers { ReplyMatches(w1, e, n, limits); }
  }

  lemma {:induction false} AcceptedExchange(w1: World, w2: World, w3: World, e: nat, b: Batch, n: nat, actor: int,
                                            limits: Limits)
    requires WorldInv(w1, limits) && e == w1.store.epoch && e in w1.handles && IsWriter(w1.store, actor, e, e, true)
    requires w1.handles[e].nextSeq < |w1.store.log| && w1.handles[e].stage.AwaitAck?
    requires w1.handles[e].stage.batch == b == Ahead(w1, e) && Key(e, b) in w1.sent && n == |w1.store.log|
    requires Contiguous(b, w1.handles[e].nextSeq)
    requires w2 == Happen(w1, Deliver(Key(e, b), actor, true), limits)
    requires w3 == Happen(w2, Receive(Answer(e, b, n)), limits)
    ensures e in w3.handles && w3.handles[e].nextSeq == |w3.store.log|
  {
    RetryAcceptedIff(w1, e, actor, b, limits);
    AcceptedRetry(w1, w2, w3, e, b, n, actor, limits);
  }

  lemma {:induction false} RefusedExchange(w1: World, w2: World, w3: World, e: nat, b: Batch, n: nat, actor: int,
                                           limits: Limits)
    requires WorldInv(w1, limits) && e == w1.store.epoch && e in w1.handles && IsWriter(w1.store, actor, e, e, true)
    requires w1.handles[e].nextSeq < |w1.store.log| && w1.handles[e].stage.AwaitAck? && w1.handles[e].stage.batch == b
    requires b != [] && Contiguous(b, w1.handles[e].nextSeq) && b != Ahead(w1, e)
    requires w2 == Happen(w1, Deliver(Key(e, b), actor, true), limits)
    requires w3 == Happen(w2, Receive(Answer(e, b, n)), limits)
    ensures e in w3.handles && w3.handles[e].nextSeq < |w3.store.log|
  {
    RetryAcceptedIff(w1, e, actor, b, limits);
    RefusedRetry(w1, w2, w3, e, b, n, actor, limits);
  }

  /** A request that starts at the acknowledged prefix closes the gap iff it is the committed batch:
      `w2` is after the backend has processed it, `w3` after the handle has heard back. */
  lemma {:induction false} ExchangeIff(w1: World, w2: World, w3: World, e: nat, b: Batch, n: nat, actor: int,
                                       limits: Limits)
    requires WorldInv(w1, limits) && e == w1.store.epoch && e in w1.handles && IsWriter(w1.store, actor, e, e, true)
    requires w1.handles[e].nextSeq < |w1.store.log| && w1.handles[e].stage.AwaitAck? && w1.handles[e].stage.batch == b
    requires b != [] && Contiguous(b, w1.handles[e].nextSeq) && Key(e, b) in w1.sent
    requires w2 == Happen(w1, Deliver(Key(e, b), actor, true), limits)
    requires n == w1.handles[e].nextSeq + |b| && w3 == Happen(w2, Receive(Answer(e, b, n)), limits)
    ensures e in w3.handles && (w3.handles[e].nextSeq == |w3.store.log| <==> b == Ahead(w1, e))
  {
    if b == Ahead(w1, e) { AcceptedExchange(w1, w2, w3, e, b, n, actor, limits); }
    else { RefusedExchange(w1, w2, w3, e, b, n, actor, limits); }
  }

  /** A retry after a lost reply (the handle sends its next batch, the backend processes it, the handle
      hears back) succeeds, and then catches up completely, iff no event was enqueued since the lost batch
      was cut or that batch was full. */
  lemma {:induction false} RetryRecoversIff(w: World, w1: World, w2: World, w3: World, e: nat, b: Batch, n: nat,
                                            actor: int, limits: Limits)
    requires WorldInv(w, limits) && limits.batchSize >= 1 && e == w.store.epoch && e in w.handles
    requires IsWriter(w.store, actor, e, e, true)
    requires w.handles[e].stage.Draining? && !w.handles[e].lost && w.handles[e].nextSeq < |w.store.log|
    requires Contiguous(w.handles[e].pending, w.handles[e].nextSeq) && Ahead(w, e) <= w.handles[e].pending
    requires w1 == Happen(w, Local(e, DoDrain), limits)
    requires b == FirstBatch(w.handles[e], limits) && n == w.handles[e].nextSeq + |b|
    requires w2 == Happen(w1, Deliver(Key(e, b), actor, true), limits)
    requires w3 == Happen(w2, Receive(Answer(e, b, n)), limits)
    ensures e in w3.handles
    ensures w3.handles[e].nextSeq == |w3.store.log| <==>
      |Ahead(w, e)| == limits.batchSize
      || (|Ahead(w, e)| == |w.handles[e].pending| && |Ahead(w, e)| <= limits.batchSize)
  {
    FirstBatchIs(w.handles[e], Ahead(w, e), limits);
    SendsFirst(w, w1, e, limits);
    ExchangeIff(w1, w2, w3, e, b, n, actor, limits);
  }

  // ---------------------------------------------------------------------
  // Once events were enqueued behind a lost partial batch
  // ---------------------------------------------------------------------

  /** The backend is ahead by less than a full batch, and the queue has grown since. */
  ghost predicate Wedged(w: World, e: nat, limits: Limits) {
    && e == w.store.epoch && e in w.handles
    && var h := w.handles[e];
    && h.nextSeq < |w.store.log|
    && var c := Ahead(w, e);
    && |c| < limits.batchSize && Hopeless(h, |c|)
  }

  /** Waiting for nothing that could still be confirmed. */
  ghost predicate Hopeless(h: Handle, n: nat) {
    && n < |h.pending|
    && (h.stage.AwaitAck? ==> |h.stage.batch| != n)
    && !h.stage.AwaitConfirm? && !h.stage.AwaitRelease?
  }

  lemma {:induction false} HopelessDrain(h: Handle, n: nat, limits: Limits)
    requires Hopeless(h, n) && n < limits.batchSize
    ensures var h' := DrainStep(h, limits); Hopeless(h', n) && h'.nextSeq == h.nextSeq
  {
  }

  lemma {:induction false} HopelessPiece(h: Handle, p: Piece, n: nat, limits: Limits)
    requires Hopeless(h, n) && n < limits.batchSize && !p.DoAcknowledge?
    ensures var h' := Do(h, p, limits); Hopeless(h', n) && h'.nextSeq == h.nextSeq
  {
    if p.DoDrain? { HopelessDrain(h, n, limits); }
  }

  lemma {:induction false} WedgedLocal(w: World, e: nat, p: Piece, limits: Limits)
    requires WorldInv(w, limits) && Wedged(w, e, limits) && !p.DoAcknowledge?
    ensures Wedged(Happen(w, Local(e, p), limits), e, limits)
  {
    HopelessPiece(w.handles[e], p, |Ahead(w, e)|, limits);
  }

  /** Nothing that was ever sent continues the log. */
  lemma {:induction false} NothingFits(w: World, e: nat, k: Key, limits: Limits)
    requires WorldInv(w, limits) && Wedged(w, e, limits) && k in w.sent && k.epoch == e
    ensures k.batch != [] && !Contiguous(k.batch, |w.store.log|)
  {
    assert RequestOk(w, k);
    assert SeqAt(k.batch, 0) == k.batch[0].number;
  }

  lemma {:induction false} AppendUnchanged(s: Store, k: Key, actor: int, live: bool)
    requires k.batch != [] && (k.epoch == s.epoch ==> !Contiguous(k.batch, |s.log|))
    ensures var r := Append(s, actor, k.epoch, k.epoch, live, k.batch, k.batch); r.Ok? ==> r.value.0 == s
  {
  }

  lemma {:induction false} WedgedDeliver(w: World, e: nat, k: Key, actor: int, live: bool, limits: Limits)
    requires WorldInv(w, limits) && Wedged(w, e, limits) && k in w.sent
    ensures Happen(w, Deliver(k, actor, live), limits).store == w.store
    ensures Happen(w, Deliver(k, actor, live), limits).handles == w.handles
  {
    assert RequestOk(w, k);
    if k.epoch == e { NothingFits(w, e, k, limits); }
    AppendUnchanged(w.store, k, actor, live);
  }

  /** No reply can be the one the handle waits for. */
  lemma {:induction false} WedgedReceive(w: World, e: nat, a: Answer, limits: Limits)
    requires WorldInv(w, limits) && Wedged(w, e, limits)
    ensures var w' := Happen(w, Receive(a), limits);
      w'.store == w.store && e in w'.handles && w'.handles[e] == w.handles[e]
  {
    if a.epoch == e && a in w.answers && w.handles[e].stage.AwaitAck? && w.handles[e].stage.batch == a.batch {
      ReplyMatches(w, e, a.nextSeq, limits);
    }
  }

  lemma {:induction false} WedgedElse(w: World, e: nat, x: Happening, limits: Limits)
    requires Wedged(w, e, limits) && (x.Open? || x.Release? || (x.Local? && x.epoch != e))
    ensures var w' := Happen(w, x, limits);
      w'.store.epoch == e ==> w'.store == w.store && e in w'.handles && w'.handles[e] == w.handles[e]
  {
  }

  lemma {:induction false} WedgedStep(w: World, e: nat, x: Happening, limits: Limits)
    requires WorldInv(w, limits) && Wedged(w, e, limits) && limits.batchSize >= 1
    ensures var w' := Happen(w, x, limits);
      w'.store.epoch == e ==> Wedged(w', e, limits) && w'.store.log == w.store.log
    ensures Happen(w, x, limits).store.epoch >= e
  {
    EpochGrows(w, x, limits);
    match x
    case Local(d, p) =>
      if d != e { WedgedElse(w, e, x, limits); }
      else if !p.DoAcknowledge? { WedgedLocal(w, e, p, limits); }
    case Deliver(k, actor, live) => if k in w.sent { WedgedDeliver(w, e, k, actor, live, limits); }
    case Receive(a) => WedgedReceive(w, e, a, limits);
    case _ => WedgedElse(w, e, x, limits);
  }

  lemma {:induction false} EpochGrows(w: World, x: Happening, limits: Limits)
    ensures Happen(w, x, limits).store.epoch >= w.store.epoch
  {
  }

  /** For as long as the writer is not replaced, whatever happens: nothing more is stored, and no
      flush, close or gated tool start of this handle ever gets as far as its confirmation. */
  lemma {:induction false} WedgedForever(w: World, e: nat, xs: seq<Happening>, limits: Limits)
    requires WorldInv(w, limits) && Wedged(w, e, limits) && limits.batchSize >= 1
    ensures var w' := HappenAll(w, xs, limits);
      && w'.store.epoch >= e
      && (w'.store.epoch == e ==>
            && Wedged(w', e, limits) && w'.store.log == w.store.log
            && !w'.handles[e].stage.AwaitConfirm? && !w'.handles[e].stage.AwaitRelease?)
  {
    if xs != [] {
      var before, x := xs[..|xs| - 1], xs[|xs| - 1];
      WedgedForever(w, e, before, limits);
      HistoryKeeps(w, before, limits);
      var w1 := HappenAll(w, before, limits);
      if w1.store.epoch == e { WedgedStep(w1, e, x, limits); } else { EpochGrows(w1, x, limits); }
    }
  }

  lemma {:induction false} HappenNext(w: World, xs: seq<Happening>, x: Happening, limits: Limits)
    ensures HappenAll(w, xs + [x], limits) == Happen(HappenAll(w, xs, limits), x, limits)
  {
    assert (xs + [x])[..|xs|] == xs;
  }

  function OpenAndSend(a: Event): seq<Happening> {
    [Open(0, false, None)] + [Local(1, DoEnqueue(a))] + [Local(1, DoFlush)] + [Local(1, DoBegin)] + [Local(1, DoDrain)]
  }

  function LoseReply(a: Event, b: Event): seq<Happening> {
    [Deliver(Key(1, [a]), 0, true)] + [Local(1, DoFail(false))] + [Local(1, DoEnqueue(b))]
  }

  /** The first writer of a new session, before anything was stored. */
  function Single(h: Handle, sent: set<Key>): World {
    World(Store([], 1, Some(Owner(0, 1)), map[]), map[1 := h], sent, {})
  }

  lemma {:induction false} SingleOpens(limits: Limits)
    ensures Happen(Initial(), Open(0, false, None), limits) == Single(Opened(0), {})
  {
    assert Happen(Initial(), Open(0, false, None), limits).handles == map[1 := Opened(0)];
  }

  lemma {:induction false} SingleGoes(h: Handle, h': Handle, p: Piece, limits: Limits)
    requires !p.DoAcknowledge? && h' == Do(h, p, limits)
    ensures Happen(Single(h, {}), Local(1, p), limits)
      == Single(h', if h'.stage.AwaitAck? then {Key(1, h'.stage.batch)} else {})
  {
    assert map[1 := h][1 := h'] == map[1 := h'];
    assert {} + {Key(1, [])} == {Key(1, [])};
  }

  lemma {:induction false} SentHandle(a: Event, limits: Limits) returns (h1: Handle, h2: Handle, h3: Handle, h4: Handle)
    requires limits.batchSize >= 2 && limits.maxPending >= 2 && a.number == 0
    ensures h1 == Do(Opened(0), DoEnqueue(a), limits) && h2 == Do(h1, DoFlush, limits)
    ensures h3 == Do(h2, DoBegin, limits) && h4 == Do(h3, DoDrain, limits)
    ensures h4 == Opened(0).(pending := [a], enqueued := [a], stage := AwaitAck(FlushGoal(1), [a], false))
    ensures !h1.stage.AwaitAck? && !h2.stage.AwaitAck? && !h3.stage.AwaitAck?
  {
    h1 := Opened(0).(pending := [a], enqueued := [a]);
    h2 := h1.(chain := [FlushGoal(1)]);
    h3 := h1.(stage := Draining(FlushGoal(1)));
    h4 := h1.(stage := AwaitAck(FlushGoal(1), [a], false));
    assert [] + [a] == [a] && [] + [FlushGoal(1)] == [FlushGoal(1)] && [FlushGoal(1)][1..] == [];
    assert Contiguous([a], 0);
  }

  lemma {:induction false} Sent(a: Event, limits: Limits)
    requires limits.batchSize >= 2 && limits.maxPending >= 2 && a.number == 0
    ensures HappenAll(Initial(), OpenAndSend(a), limits) ==
      Single(Awaiting(a), {Key(1, [a])})
  {
    var h1, h2, h3, h4 := SentHandle(a, limits);
    SingleOpens(limits);
    SingleGoes(Opened(0), h1, DoEnqueue(a), limits);
    SingleGoes(h1, h2, DoFlush, limits);
    SingleGoes(h2, h3, DoBegin, limits);
    SingleGoes(h3, h4, DoDrain, limits);
    FiveHappen(Initial(), Open(0, false, None), Local(1, DoEnqueue(a)), Local(1, DoFlush), Local(1, DoBegin),
      Local(1, DoDrain), limits);
  }

  lemma {:induction false} ThreeHappen(w: World, x: Happening, y: Happening, z: Happening, limits: Limits)
    ensures HappenAll(w, [x] + [y] + [z], limits) == Happen(Happen(Happen(w, x, limits), y, limits), z, limits)
  {
    HappenNext(w, [], x, limits);
    assert [] + [x] == [x] && HappenAll(w, [], limits) == w;
    HappenNext(w, [x], y, limits);
    HappenNext(w, [x] + [y], z, limits);
  }

  lemma {:induction false} FiveHappen(w: World, x: Happening, y: Happening, z: Happening, u: Happening, v: Happening,
                                      limits: Limits)
    ensures HappenAll(w, [x] + [y] + [z] + [u] + [v], limits) ==
      Happen(Happen(Happen(Happen(Happen(w, x, limits), y, limits), z, limits), u, limits), v, limits)
  {
    ThreeHappen(w, x, y, z, limits);
    HappenNext(w, [x] + [y] + [z], u, limits);
    HappenNext(w, [x] + [y] + [z] + [u], v, limits);
  }

  /** The handle when its only request is out. */
  function Awaiting(a: Event): Handle {
    Opened(0).(pending := [a], enqueued := [a], stage := AwaitAck(FlushGoal(1), [a], false))
  }

  /** The backend commits the batch, the sender gives up, one more event comes in. */
  lemma {:induction false} Lost(w: World, w1: World, w2: World, w3: World, a: Event, b: Event, limits: Limits)
    requires limits.batchSize >= 2 && limits.maxPending >= 2 && a.number == 0
    requires w == Single(Awaiting(a), {Key(1, [a])})
    requires w1 == Happen(w, Deliver(Key(1, [a]), 0, true), limits)
    requires w2 == Happen(w1, Local(1, DoFail(false)), limits)
    requires w3 == Happen(w2, Local(1, DoEnqueue(b)), limits)
    ensures Wedged(w3, 1, limits) && w3.store.log == [a] && w3.handles[1].pending == [a, b]
  {
    Committed(w, w1, a, limits);
    assert w2.handles[1] == Awaiting(a).(stage := Idle) && w2.store == w1.store;
    assert w3.handles[1].pending == [a] + [b] && w3.store == w1.store;
  }

  lemma {:induction false} Committed(w: World, w1: World, a: Event, limits: Limits)
    requires a.number == 0 && w == Single(Awaiting(a), {Key(1, [a])})
    requires w1 == Happen(w, Deliver(Key(1, [a]), 0, true), limits)
    ensures w1.store.log == [a] && w1.store.epoch == 1 && w1.handles == w.handles
  {
    assert Contiguous([a], 0);
    assert [] + [a] == [a];
  }

  /** It does happen, for every batch size above one: one reply lost, one more event enqueued. */
  lemma {:induction false} OneLostReplyWedges(a: Event, b: Event, limits: Limits)
    requires limits.batchSize >= 2 && limits.maxPending >= 2 && a.number == 0
    ensures var w := HappenAll(HappenAll(Initial(), OpenAndSend(a), limits), LoseReply(a, b), limits);
      Wedged(w, 1, limits) && w.store.log == [a] && w.handles[1].pending == [a, b]
  {
    Sent(a, limits);
    var x, y, z := Deliver(Key(1, [a]), 0, true), Local(1, DoFail(false)), Local(1, DoEnqueue(b));
    var w0 := HappenAll(Initial(), OpenAndSend(a), limits);
    ThreeHappen(w0, x, y, z, limits);
    var w1 := Happen(w0, x, limits);
    var w2 := Happen(w1, y, limits);
    Lost(w0, w1, w2, Happen(w2, z, limits), a, b, limits);
  }
}
