/**
 Handles and backend together. Any number of writers come and go by opening and
 taking over; requests and replies may be lost, late or repeated; a request
 keeps travelling after its sender has given up. The writer token of an epoch is
 known to the handle of that epoch only, so an epoch stands for its token.
 */
module DurableLog {
  import opened Options
  import opened SessionStore
  import opened SessionHandle

  datatype Answer = Answer(epoch: nat, batch: Batch, nextSeq: nat)

  /** `sent`: every append request ever issued. `answers`: every successful reply ever produced. */
  datatype World = World(store: Store, handles: map<nat, Handle>, sent: set<Key>, answers: set<Answer>)

  datatype Happening =
    | Open(actor: int, canTakeover: bool, expected: Option<nat>)
    | Local(epoch: nat, piece: Piece)              // handle code that needs no reply
    | Deliver(request: Key, actor: int, live: bool) // the backend processes an append request
    | Receive(answer: Answer)                       // the handle receives a reply
    | Release(epoch: nat, actor: int, live: bool)   // the backend processes a release request

  function Initial(): World {
    World(Store([], 0, None, map[]), map[], {}, {})
  }

  function WithHandle(w: World, e: nat, h: Handle): World {
    w.(handles := w.handles[e := h],
       sent := if h.stage.AwaitAck? then w.sent + {Key(e, h.stage.batch)} else w.sent)
  }

  function Happen(w: World, x: Happening, limits: Limits): World {
    match x
    case Open(actor, canTakeover, expected) =>
      var r := OpenWriter(w.store, actor, canTakeover, expected, w.store.epoch + 1);
      if r.Err? then w
      else w.(store := r.value, handles := w.handles[r.value.epoch := Opened(|r.value.log|)])
    case Local(e, piece) =>
      if e !in w.handles || piece.DoAcknowledge? then w
      else WithHandle(w, e, Do(w.handles[e], piece, limits))
    case Deliver(k, actor, live) =>
      if k !in w.sent then w else
      var r := Append(w.store, actor, k.epoch, k.epoch, live, k.batch, k.batch);
      if r.Err? then w
      else w.(store := r.value.0, answers := w.answers + {Answer(k.epoch, k.batch, r.value.1)})
    case Receive(a) =>
      if a !in w.answers || a.epoch !in w.handles then w else
      var h := w.handles[a.epoch];
      if h.stage.AwaitAck? && h.stage.batch == a.batch then
        WithHandle(w, a.epoch, Acknowledge(h, a.nextSeq))
      else w
    case Release(e, actor, live) =>
      var r := ReleaseOwner(w.store, actor, e, e, live);
      if r.Err? then w else w.(store := r.value)
  }

  function HappenAll(w: World, xs: seq<Happening>, limits: Limits): World {
    if xs == [] then w else Happen(HappenAll(w, xs[..|xs| - 1], limits), xs[|xs| - 1], limits)
  }

  // ---------------------------------------------------------------------
  // Invariant
  // ---------------------------------------------------------------------

  /** Everything a handle counts as acknowledged is in the log, where its numbers say. */
  ghost predicate HandleOk(w: World, e: nat, h: Handle, limits: Limits) {
    && HandleInv(h, limits)
    && e <= w.store.epoch
    && h.nextSeq <= |w.store.log|
    && w.store.log[h.base..h.nextSeq] == EventsOf(h.acked)
    && (h.stage.AwaitAck? ==> Key(e, h.stage.batch) in w.sent)
    && (e == w.store.epoch && h.nextSeq < |w.store.log| ==>
          Key(e, w.store.log[h.nextSeq..]) in w.store.receipts)
  }

  /** A request starts no later than its sender's acknowledged prefix ends. */
  ghost predicate RequestOk(w: World, k: Key) {
    && k.epoch in w.handles && k.batch != []
    && Contiguous(k.batch, k.batch[0].number)
    && k.batch[0].number <= w.handles[k.epoch].nextSeq
  }

  ghost predicate AnswerOk(w: World, a: Answer) {
    && Key(a.epoch, a.batch) in w.store.receipts
    && w.store.receipts[Key(a.epoch, a.batch)].nextSeq == a.nextSeq
  }

  ghost predicate WorldInv(w: World, limits: Limits) {
    && StoreInv(w.store)
    && (forall e :: e in w.handles ==> HandleOk(w, e, w.handles[e], limits))
    && (forall k :: k in w.sent ==> RequestOk(w, k))
    && (forall a :: a in w.answers ==> AnswerOk(w, a))
    && (forall k :: k in w.store.receipts ==> k in w.sent)
  }

  lemma {:induction false} DrainFrame(h: Handle, limits: Limits)
    requires limits.batchSize >= 1
    ensures var h' := DrainStep(h, limits);
      && h'.base == h.base && h'.nextSeq == h.nextSeq && h'.acked == h.acked
      && (h'.stage.AwaitAck? ==> h'.stage == h.stage || (h'.stage.batch != [] && Contiguous(h'.stage.batch, h.nextSeq)))
  {
  }

  /** A piece of code that receives nothing leaves the acknowledged part alone. */
  lemma {:induction false} LocalFrame(h: Handle, p: Piece, limits: Limits)
    requires !p.DoAcknowledge? && limits.batchSize >= 1
    ensures var h' := Do(h, p, limits);
      && h'.base == h.base && h'.nextSeq == h.nextSeq && h'.acked == h.acked
      && (h'.stage.AwaitAck? ==> h'.stage == h.stage || (h'.stage.batch != [] && Contiguous(h'.stage.batch, h.nextSeq)))
  {
    if p.DoDrain? { DrainFrame(h, limits); }
  }

  lemma {:induction false} LocalKeeps(w: World, e: nat, p: Piece, limits: Limits)
    requires WorldInv(w, limits) && limits.batchSize >= 1 && e in w.handles && !p.DoAcknowledge?
    ensures WorldInv(Happen(w, Local(e, p), limits), limits)
  {
    var h, h' := w.handles[e], Do(w.handles[e], p, limits);
    assert HandleOk(w, e, h, limits);
    PieceKeeps(h, p, limits);
    LocalFrame(h, p, limits);
    var w' := WithHandle(w, e, h');
    assert HandleOk(w', e, h', limits);
    forall d | d in w'.handles ensures HandleOk(w', d, w'.handles[d], limits) {
      if d != e { assert HandleOk(w, d, w.handles[d], limits); }
    }
    forall k | k in w'.sent ensures RequestOk(w', k) {
      if k in w.sent {
        assert RequestOk(w, k);
      } else {
        assert k == Key(e, h'.stage.batch) && SeqAt(h'.stage.batch, 0) == h.nextSeq;
      }
    }
    forall a | a in w'.answers ensures AnswerOk(w', a) { assert AnswerOk(w, a); }
  }

  /** Two receipts that start at the same number are the same. */
  lemma {:induction false} ReceiptAt(s: Store, k: Key, start: nat)
    requires StoreInv(s) && k in s.receipts && k.batch != [] && k.batch[0].number == start
    ensures StartOf(s.receipts[k]) == start && s.receipts[k].digest == k.batch
    ensures start + |k.batch| <= |s.log| && s.log[start..start + |k.batch|] == k.batch
    ensures s.receipts[k].nextSeq == start + |k.batch|
  {
    var r := s.receipts[k];
    assert ReceiptOk(s.log, k, r);
    var lo := r.nextSeq - |r.digest|;
    assert s.log[lo..r.nextSeq][0] == s.log[lo];
    assert SeqAt(s.log, lo) == lo;
  }

  /** The reply a handle waits for can only be the one the code expects, and it leaves nothing
      committed beyond the acknowledged prefix. */
  lemma {:induction false} ReplyMatches(w: World, e: nat, n: nat, limits: Limits)
    requires WorldInv(w, limits) && e in w.handles && w.handles[e].stage.AwaitAck?
    requires Answer(e, w.handles[e].stage.batch, n) in w.answers
    ensures var h := w.handles[e]; var b := h.stage.batch;
      && n == h.nextSeq + |b| <= |w.store.log|
      && w.store.log[h.nextSeq..n] == b
      && (e == w.store.epoch ==> n == |w.store.log|)
  {
    var h := w.handles[e];
    var b := h.stage.batch;
    assert HandleOk(w, e, h, limits);
    assert AnswerOk(w, Answer(e, b, n));
    assert SeqAt(b, 0) == h.nextSeq;
    ReceiptAt(w.store, Key(e, b), h.nextSeq);
    if e == w.store.epoch {
      var c := w.store.log[h.nextSeq..];
      assert Key(e, c) in w.store.receipts;
      assert c[0] == b[0];
      ReceiptAt(w.store, Key(e, c), h.nextSeq);
      assert Key(e, b) == Key(e, c);
    }
  }

  lemma {:induction false} ReceivedHandle(w: World, a: Answer, limits: Limits) returns (h': Handle)
    requires WorldInv(w, limits) && a in w.answers && a.epoch in w.handles
    requires w.handles[a.epoch].stage.AwaitAck? && w.handles[a.epoch].stage.batch == a.batch
    ensures h' == Acknowledge(w.handles[a.epoch], a.nextSeq) && !h'.stage.AwaitAck?
    ensures w.handles[a.epoch].nextSeq <= h'.nextSeq
    ensures HandleOk(w, a.epoch, h', limits)
  {
    var e, h, n := a.epoch, w.handles[a.epoch], a.nextSeq;
    assert HandleOk(w, e, h, limits);
    ReplyMatches(w, e, n, limits);
    AcknowledgeKeeps(h, n, limits);
    h' := Acknowledge(h, n);
    SliceJoin(w.store.log, h.base, h.nextSeq, n);
  }

  /** Replacing one handle by another that has acknowledged no less and sends nothing. */
  lemma {:induction false} ReplaceKeeps(w: World, e: nat, h': Handle, limits: Limits)
    requires WorldInv(w, limits) && e in w.handles && HandleOk(w, e, h', limits)
    requires w.handles[e].nextSeq <= h'.nextSeq && !h'.stage.AwaitAck?
    ensures WorldInv(WithHandle(w, e, h'), limits)
  {
    var w' := WithHandle(w, e, h');
    forall d | d in w'.handles ensures HandleOk(w', d, w'.handles[d], limits) {
      if d != e { assert HandleOk(w, d, w.handles[d], limits); }
    }
    forall k | k in w'.sent ensures RequestOk(w', k) { assert RequestOk(w, k); }
    forall x | x in w'.answers ensures AnswerOk(w', x) { assert AnswerOk(w, x); }
  }

  lemma {:induction false} ReceiveIs(w: World, a: Answer, limits: Limits)
    requires a in w.answers && a.epoch in w.handles
    requires w.handles[a.epoch].stage.AwaitAck? && w.handles[a.epoch].stage.batch == a.batch
    ensures Happen(w, Receive(a), limits) == WithHandle(w, a.epoch, Acknowledge(w.handles[a.epoch], a.nextSeq))
  {
  }

  lemma {:induction false} ReceiveKeeps(w: World, a: Answer, limits: Limits) returns (w': World)
    requires WorldInv(w, limits) && a in w.answers && a.epoch in w.handles
    requires w.handles[a.epoch].stage.AwaitAck? && w.handles[a.epoch].stage.batch == a.batch
    ensures WorldInv(w', limits) && w' == WithHandle(w, a.epoch, Acknowledge(w.handles[a.epoch], a.nextSeq))
  {
    var h' := ReceivedHandle(w, a, limits);
    ReplaceKeeps(w, a.epoch, h', limits);
    w' := WithHandle(w, a.epoch, h');
  }

  lemma {:induction false} SliceJoin(log: seq<Event>, a: nat, b: nat, c: nat)
    requires a <= b <= c <= |log|
    ensures log[a..b] + log[b..c] == log[a..c]
  {
  }

  /** A new batch is invisible to every handle, except that its sender's committed prefix is ahead now. */
  lemma {:induction false} AppendedHandle(w: World, w': World, k: Key, d: nat, limits: Limits)
    requires WorldInv(w, limits) && k in w.sent && d in w.handles && k.epoch == w.store.epoch
    requires k !in w.store.receipts && Contiguous(k.batch, |w.store.log|)
    requires w' == w.(store := Appended(w.store, k.epoch, k.batch), answers := w'.answers)
    ensures HandleOk(w', d, w.handles[d], limits)
  {
    var h, log, log' := w.handles[d], w.store.log, w'.store.log;
    assert HandleOk(w, d, h, limits);
    assert log'[h.base..h.nextSeq] == log[h.base..h.nextSeq];
    if d == w'.store.epoch {
      assert RequestOk(w, k);
      assert SeqAt(k.batch, 0) == |log|;
      assert log'[|log|..] == k.batch;
    }
  }

  /** A batch that is committed now starts exactly where its sender's acknowledged prefix ends. */
  lemma {:induction false} DeliverKeeps(w: World, k: Key, actor: int, live: bool, limits: Limits)
    requires WorldInv(w, limits) && k in w.sent
    ensures WorldInv(Happen(w, Deliver(k, actor, live), limits), limits)
    ensures w.store.log <= Happen(w, Deliver(k, actor, live), limits).store.log
  {
    var r := Append(w.store, actor, k.epoch, k.epoch, live, k.batch, k.batch);
    AppendKeeps(w.store, actor, k.epoch, k.epoch, live, k.batch);
    if r.Ok? {
      var w' := w.(store := r.value.0, answers := w.answers + {Answer(k.epoch, k.batch, r.value.1)});
      if k in w.store.receipts { AnsweredAgain(w, w', k, r.value.1, limits); } else { CommitKeeps(w, w', k, limits); }
    }
  }

  /** A repeated request is answered from its receipt. */
  lemma {:induction false} AnsweredAgain(w: World, w': World, k: Key, n: nat, limits: Limits)
    requires WorldInv(w, limits) && w' == w.(answers := w.answers + {Answer(k.epoch, k.batch, n)})
    requires k in w.store.receipts && w.store.receipts[k].nextSeq == n
    ensures WorldInv(w', limits)
  {
    forall d | d in w'.handles ensures HandleOk(w', d, w'.handles[d], limits)
      { assert HandleOk(w, d, w.handles[d], limits); }
    forall x | x in w'.answers ensures AnswerOk(w', x) { if x in w.answers { assert AnswerOk(w, x); } }
    forall q | q in w'.sent ensures RequestOk(w', q) { assert RequestOk(w, q); }
  }

  /** A new batch is committed and answered. */
  lemma {:induction false} CommitKeeps(w: World, w': World, k: Key, limits: Limits)
    requires WorldInv(w, limits) && k in w.sent && k !in w.store.receipts && k.epoch == w.store.epoch
    requires Contiguous(k.batch, |w.store.log|)
    requires w' == w.(store := Appended(w.store, k.epoch, k.batch),
                      answers := w.answers + {Answer(k.epoch, k.batch, |w.store.log + k.batch|)})
    ensures WorldInv(w', limits)
  {
    assert RequestOk(w, k);
    NewBatchKeeps(w.store, k.epoch, k.batch);
    forall d | d in w'.handles ensures HandleOk(w', d, w'.handles[d], limits) { AppendedHandle(w, w', k, d, limits); }
    forall x | x in w'.answers ensures AnswerOk(w', x) { CommitAnswers(w, w', k, x, limits); }
    forall q | q in w'.sent ensures RequestOk(w', q) { assert RequestOk(w, q); }
  }

  lemma {:induction false} CommitAnswers(w: World, w': World, k: Key, x: Answer, limits: Limits)
    requires WorldInv(w, limits) && k !in w.store.receipts && x in w'.answers
    requires w' == w.(store := Appended(w.store, k.epoch, k.batch),
                      answers := w.answers + {Answer(k.epoch, k.batch, |w.store.log + k.batch|)})
    ensures AnswerOk(w', x)
  {
    if x in w.answers { assert AnswerOk(w, x); }
  }

  /** The handles after a new one was opened: the new one is up to date, and the others belong to the past. */
  lemma {:induction false} OpenHandles(w: World, s': Store, d: nat, limits: Limits)
    requires WorldInv(w, limits) && s'.epoch == w.store.epoch + 1 && s'.log == w.store.log
      && s'.receipts == w.store.receipts
    requires d in w.handles || d == s'.epoch
    ensures var hs := w.handles[s'.epoch := Opened(|s'.log|)];
      HandleOk(w.(store := s', handles := hs), d, hs[d], limits)
  {
    if d == s'.epoch {
      EveryInterleaving(|s'.log|, [], limits.(batchSize := 1));
    } else {
      assert HandleOk(w, d, w.handles[d], limits);
    }
  }

  lemma {:induction false} OpenRequests(w: World, k: Key, limits: Limits)
    requires WorldInv(w, limits) && k in w.sent
    ensures RequestOk(w, k) && k.epoch <= w.store.epoch
  {
    assert RequestOk(w, k) && HandleOk(w, k.epoch, w.handles[k.epoch], limits);
  }

  lemma {:induction false} OpenedWorld(w: World, w': World, limits: Limits)
    requires WorldInv(w, limits) && StoreInv(w'.store) && w'.store.epoch == w.store.epoch + 1
    requires w'.store.log == w.store.log && w'.store.receipts == w.store.receipts
    requires w' == w.(store := w'.store, handles := w.handles[w'.store.epoch := Opened(|w.store.log|)])
    ensures WorldInv(w', limits)
  {
    forall d | d in w'.handles ensures HandleOk(w', d, w'.handles[d], limits) { OpenHandles(w, w'.store, d, limits); }
    forall k | k in w'.sent ensures RequestOk(w', k) { OpenRequests(w, k, limits); }
    forall x | x in w'.answers ensures AnswerOk(w', x) { assert AnswerOk(w, x); }
  }

  lemma {:induction false} OpenIs(w: World, actor: int, canTakeover: bool, expected: Option<nat>, limits: Limits)
    returns (w': World)
    requires StoreInv(w.store)
    ensures w' == Happen(w, Open(actor, canTakeover, expected), limits)
    ensures w' == w ||
      (&& StoreInv(w'.store) && w'.store.epoch == w.store.epoch + 1
       && w'.store.log == w.store.log && w'.store.receipts == w.store.receipts
       && w' == w.(store := w'.store, handles := w.handles[w'.store.epoch := Opened(|w.store.log|)]))
  {
    w' := Happen(w, Open(actor, canTakeover, expected), limits);
  }

  lemma {:induction false} OpenKeeps(w: World, actor: int, canTakeover: bool, expected: Option<nat>, limits: Limits)
    returns (w': World)
    requires WorldInv(w, limits)
    ensures w' == Happen(w, Open(actor, canTakeover, expected), limits)
    ensures WorldInv(w', limits) && w'.store.log == w.store.log
  {
    w' := OpenIs(w, actor, canTakeover, expected, limits);
    if w' != w { OpenedWorld(w, w', limits); }
  }

  lemma {:induction false} ReleaseKeeps(w: World, e: nat, actor: int, live: bool, limits: Limits)
    requires WorldInv(w, limits)
    ensures WorldInv(Happen(w, Release(e, actor, live), limits), limits)
  {
    var w' := Happen(w, Release(e, actor, live), limits);
    forall d | d in w'.handles ensures HandleOk(w', d, w'.handles[d], limits) {
      assert HandleOk(w, d, w.handles[d], limits);
    }
    forall k | k in w'.sent ensures RequestOk(w', k) { assert RequestOk(w, k); }
    forall x | x in w'.answers ensures AnswerOk(w', x) { assert AnswerOk(w, x); }
  }

  lemma {:induction false} HappeningKeeps(w: World, x: Happening, limits: Limits)
    requires WorldInv(w, limits) && limits.batchSize >= 1
    ensures var w' := Happen(w, x, limits); WorldInv(w', limits) && w.store.log <= w'.store.log
  {
    match x
    case Open(actor, canTakeover, expected) => var w' := OpenKeeps(w, actor, canTakeover, expected, limits);
    case Local(e, p) => if e in w.handles && !p.DoAcknowledge? { LocalKeeps(w, e, p, limits); }
    case Deliver(k, actor, live) => if k in w.sent { DeliverKeeps(w, k, actor, live, limits); }
    case Receive(a) =>
      if a in w.answers && a.epoch in w.handles && w.handles[a.epoch].stage.AwaitAck?
        && w.handles[a.epoch].stage.batch == a.batch
      {
        var w' := ReceiveKeeps(w, a, limits);
        ReceiveIs(w, a, limits);
      }
    case Release(e, actor, live) => ReleaseKeeps(w, e, actor, live, limits);
  }

  lemma {:induction false} HistoryKeeps(w: World, xs: seq<Happening>, limits: Limits)
    requires WorldInv(w, limits) && limits.batchSize >= 1
    ensures var w' := HappenAll(w, xs, limits); WorldInv(w', limits) && w.store.log <= w'.store.log
  {
    if xs != [] {
      HistoryKeeps(w, xs[..|xs| - 1], limits);
      HappeningKeeps(HappenAll(w, xs[..|xs| - 1], limits), xs[|xs| - 1], limits);
    }
  }

  lemma {:induction false} Reachable(xs: seq<Happening>, limits: Limits)
    requires limits.batchSize >= 1
    ensures WorldInv(HappenAll(Initial(), xs, limits), limits)
  {
    HistoryKeeps(Initial(), xs, limits);
  }

  lemma {:induction false} AckedIsStored(w: World, e: nat, i: nat, limits: Limits)
    requires WorldInv(w, limits) && e in w.handles && i < |w.handles[e].acked|
    ensures var event := EventsOf(w.handles[e].acked)[i];
      event.number == w.handles[e].base + i < |w.store.log| && w.store.log[event.number] == event
  {
    var h := w.handles[e];
    assert HandleOk(w, e, h, limits);
    assert SeqAt(EventsOf(h.acked), i) == h.base + i;
    assert w.store.log[h.base..h.nextSeq][i] == w.store.log[h.base + i];
  }

  /** No event occurs twice in a gap-free log. */
  lemma {:induction false} StoredOnce(log: seq<Event>, i: nat)
    requires Contiguous(log, 0) && i < |log|
    ensures forall j: nat :: j < |log| && j != i ==> log[j] != log[i]
  {
    assert SeqAt(log, i) == i;
    forall j: nat | j < |log| && j != i ensures log[j] != log[i] { assert SeqAt(log, j) == j; }
  }

  /** Durability across crashes, takeovers and lost messages: whatever happens before and after, an
      event a handle counts as acknowledged stays in the log for ever at the index given by its own
      sequence number, so it is neither lost nor stored twice. */
  lemma {:induction false} AcknowledgedStays(past: seq<Happening>, future: seq<Happening>, e: nat, i: nat,
                                             limits: Limits)
    requires limits.batchSize >= 1
    requires var w := HappenAll(Initial(), past, limits); e in w.handles && i < |w.handles[e].acked|
    ensures var w := HappenAll(Initial(), past, limits);
      var event := EventsOf(w.handles[e].acked)[i];
      var log := HappenAll(w, future, limits).store.log;
      && event.number == w.handles[e].base + i < |log|
      && log[event.number] == event
      && forall j: nat :: j < |log| && j != event.number ==> log[j] != event
  {
    Reachable(past, limits);
    var w := HappenAll(Initial(), past, limits);
    HistoryKeeps(w, future, limits);
    AckedIsStored(w, e, i, limits);
    StoredOnce(HappenAll(w, future, limits).store.log, EventsOf(w.handles[e].acked)[i].number);
  }

  lemma {:induction false} FlushedIsAcked(w: World, e: nat, mark: nat, k: nat, limits: Limits) returns (i: nat)
    requires WorldInv(w, limits) && e in w.handles
    requires w.handles[e].stage == AwaitConfirm(FlushGoal(mark)) && k < mark <= |w.handles[e].enqueued|
    ensures i < |w.handles[e].acked| && EventsOf(w.handles[e].acked)[i] == w.handles[e].enqueued[k]
  {
    var h := w.handles[e];
    assert HandleOk(w, e, h, limits);
    FlushCovers(h, limits, mark);
    assert Drained(h.acked)[k] == Drained(h.acked)[..mark][k] == h.enqueued[k];
    i := DrainedIsAcked(h.acked, k);
  }

  /** A confirmed flush makes everything enqueued before the call durable, in order. */
  lemma {:induction false} FlushedIsDurable(xs: seq<Happening>, e: nat, mark: nat, k: nat, limits: Limits)
    requires limits.batchSize >= 1
    requires var w := HappenAll(Initial(), xs, limits);
      e in w.handles && w.handles[e].stage == AwaitConfirm(FlushGoal(mark)) && k < mark <= |w.handles[e].enqueued|
    ensures var w := HappenAll(Initial(), xs, limits);
      var event := w.handles[e].enqueued[k];
      event.number < |w.store.log| && w.store.log[event.number] == event
  {
    Reachable(xs, limits);
    var w := HappenAll(Initial(), xs, limits);
    var i := FlushedIsAcked(w, e, mark, k, limits);
    AckedIsStored(w, e, i, limits);
  }

  lemma {:induction false} DrainedIsAcked(a: seq<Entry>, k: nat) returns (i: nat)
    requires k < |Drained(a)|
    ensures i < |a| && EventsOf(a)[i] == Drained(a)[k]
  {
    if a[0].queued && k == 0 {
      i := 0;
    } else {
      var j := DrainedIsAcked(a[1..], if a[0].queued then k - 1 else k);
      i := j + 1;
    }
  }
}
