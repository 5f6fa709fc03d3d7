/**
 The persistence backend of one session (`PersistenceStore`): an append-only log
 behind an ownership epoch. Every mutation is one SQLite transaction, so it is a
 function from row to row. SHA-256 is treated as collision free: a batch is its
 own digest. Lease expiry is the environment's choice (`live`).
 */
module SessionStore {
  import opened Options

  datatype Event = Event(number: nat, body: int)

  datatype Error = OwnershipLost | AlreadyOwned | Forbidden | SequenceConflict | InvalidEvent | PageTooLarge

  datatype Result<T> = Ok(value: T) | Err(error: Error)

  type Batch = seq<Event>

  datatype Owner = Owner(actor: int, token: int)

  /** Batch ids are scoped to an ownership epoch. */
  datatype Key = Key(epoch: nat, batch: Batch)

  /** A committed batch: its digest and the sequence number it was acknowledged with. */
  datatype Receipt = Receipt(digest: Batch, nextSeq: nat)

  datatype Store = Store(log: seq<Event>, epoch: nat, owner: Option<Owner>, receipts: map<Key, Receipt>)

  const MAX_PAGE_LENGTH: nat := 10_000

  function SeqAt(s: seq<Event>, i: nat): nat
    requires i < |s|
  {
    s[i].number
  }

  /** Sequence numbers count up from `start`. */
  predicate Contiguous(s: seq<Event>, start: nat) {
    forall i: nat :: i < |s| ==> SeqAt(s, i) == start + i
  }

  predicate IsWriter(s: Store, actor: int, token: int, epoch: nat, live: bool) {
    epoch == s.epoch && s.owner == Some(Owner(actor, token)) && live
  }

  /** `open_handle` for writing: an owned session needs the epoch its current owner was observed with. */
  function OpenWriter(s: Store, actor: int, canTakeover: bool, expected: Option<nat>, token: int): Result<Store> {
    if s.owner.Some? && expected.None? then Err(AlreadyOwned)
    else if expected.Some? && expected.value != s.epoch then Err(OwnershipLost)
    else if s.owner.Some? && s.owner.value.actor != actor && !canTakeover then Err(Forbidden)
    else Ok(s.(owner := Some(Owner(actor, token)), epoch := s.epoch + 1))
  }

  /** `append_events`: a batch known in this epoch is answered from its receipt, a new one must
      continue the log. */
  function Append(s: Store, actor: int, token: int, epoch: nat, live: bool, id: Batch, events: Batch)
    : Result<(Store, nat)>
  {
    if events == [] then Err(InvalidEvent)
    else if !IsWriter(s, actor, token, epoch, live) then Err(OwnershipLost)
    else if Key(epoch, id) in s.receipts then
      var r := s.receipts[Key(epoch, id)];
      if r.digest == events then Ok((s, r.nextSeq)) else Err(SequenceConflict)
    else if !Contiguous(events, |s.log|) then Err(SequenceConflict)
    else
      var log := s.log + events;
      Ok((s.(log := log, receipts := s.receipts[Key(epoch, id) := Receipt(events, |log|)]), |log|))
  }

  /** `flush` and `heartbeat` confirm the writer and report the committed length. */
  function Confirm(s: Store, actor: int, token: int, epoch: nat, live: bool): Result<nat> {
    if IsWriter(s, actor, token, epoch, live) then Ok(|s.log|) else Err(OwnershipLost)
  }

  function ReleaseOwner(s: Store, actor: int, token: int, epoch: nat, live: bool): Result<Store> {
    if IsWriter(s, actor, token, epoch, live) then Ok(s.(owner := None, epoch := s.epoch + 1)) else Err(OwnershipLost)
  }

  /** `read_events`: a slice of the committed log and the committed length. */
  function ReadEvents(log: seq<Event>, offset: nat, length: nat): Result<(seq<Event>, nat)> {
    if length > MAX_PAGE_LENGTH then Err(PageTooLarge)
    else if length == 0 || offset >= |log| then Ok(([], |log|))
    else Ok((log[offset..if offset + length <= |log| then offset + length else |log|], |log|))
  }

  // ---------------------------------------------------------------------

  /** A receipt describes a slice of the log. */
  ghost predicate ReceiptOk(log: seq<Event>, key: Key, r: Receipt) {
    && key.batch == r.digest != []
    && |r.digest| <= r.nextSeq <= |log|
    && log[r.nextSeq - |r.digest|..r.nextSeq] == r.digest
  }

  function StartOf(r: Receipt): int {
    r.nextSeq - |r.digest|
  }

  /** The log is gap free, and every receipt describes its own slice of it. */
  ghost predicate StoreInv(s: Store) {
    && Contiguous(s.log, 0)
    && (forall k :: k in s.receipts ==> ReceiptOk(s.log, k, s.receipts[k]))
    && (forall k, l ::
          k in s.receipts && l in s.receipts && StartOf(s.receipts[k]) == StartOf(s.receipts[l]) ==> k == l)
  }

  lemma {:induction false} ContiguousConcat(a: seq<Event>, b: seq<Event>, start: nat)
    requires Contiguous(a, start) && Contiguous(b, start + |a|)
    ensures Contiguous(a + b, start)
  {
    forall i: nat | i < |a + b| ensures SeqAt(a + b, i) == start + i {
      if i < |a| { assert SeqAt(a, i) == start + i; } else { assert SeqAt(b, i - |a|) == start + i; }
    }
  }

  lemma {:induction false} SliceStarts(log: seq<Event>, lo: nat, hi: nat)
    requires Contiguous(log, 0) && lo <= hi <= |log|
    ensures Contiguous(log[lo..hi], lo)
  {
    forall i: nat | i < hi - lo ensures SeqAt(log[lo..hi], i) == lo + i { assert SeqAt(log, lo + i) == lo + i; }
  }

  lemma {:induction false} ReceiptExtends(log: seq<Event>, more: seq<Event>, k: Key, r: Receipt)
    requires ReceiptOk(log, k, r)
    ensures ReceiptOk(log + more, k, r) && StartOf(r) < |log|
  {
    var lo, hi := r.nextSeq - |r.digest|, r.nextSeq;
    assert (log + more)[lo..hi] == log[lo..hi];
  }

  function Appended(s: Store, epoch: nat, events: Batch): Store {
    s.(log := s.log + events, receipts := s.receipts[Key(epoch, events) := Receipt(events, |s.log + events|)])
  }

  lemma {:induction false} OldReceipts(s: Store, events: Batch, k: Key)
    requires StoreInv(s) && k in s.receipts
    ensures ReceiptOk(s.log + events, k, s.receipts[k]) && StartOf(s.receipts[k]) < |s.log|
  {
    ReceiptExtends(s.log, events, k, s.receipts[k]);
  }

  lemma {:induction false} NewReceipt(log: seq<Event>, epoch: nat, events: Batch)
    requires events != []
    ensures ReceiptOk(log + events, Key(epoch, events), Receipt(events, |log + events|))
    ensures StartOf(Receipt(events, |log + events|)) == |log|
  {
    assert (log + events)[|log|..|log + events|] == events;
  }

  lemma {:induction false} NewBatchKeeps(s: Store, epoch: nat, events: Batch)
    requires StoreInv(s) && events != [] && Contiguous(events, |s.log|) && Key(epoch, events) !in s.receipts
    ensures StoreInv(Appended(s, epoch, events))
  {
    var s', key := Appended(s, epoch, events), Key(epoch, events);
    ContiguousConcat(s.log, events, 0);
    NewReceipt(s.log, epoch, events);
    forall k | k in s'.receipts
      ensures ReceiptOk(s'.log, k, s'.receipts[k]) && (StartOf(s'.receipts[k]) == |s.log| ==> k == key)
    {
      if k != key { OldReceipts(s, events, k); }
    }
    forall k, l | k in s'.receipts && l in s'.receipts && StartOf(s'.receipts[k]) == StartOf(s'.receipts[l])
      ensures k == l {
      if k != key && l != key { assert k in s.receipts && l in s.receipts; }
    }
  }

  /** Appending extends the log or leaves it alone, and keeps the store consistent; the answer is the
      position right behind the batch. */
  lemma {:induction false} AppendKeeps(s: Store, actor: int, token: int, epoch: nat, live: bool, events: Batch)
    requires StoreInv(s)
    ensures var r := Append(s, actor, token, epoch, live, events, events);
      r.Ok? ==>
        && StoreInv(r.value.0)
        && s.log <= r.value.0.log
        && r.value.0.epoch == s.epoch && r.value.0.owner == s.owner
        && Key(epoch, events) in r.value.0.receipts
        && r.value.0.receipts[Key(epoch, events)] == Receipt(events, r.value.1)
  {
    var r := Append(s, actor, token, epoch, live, events, events);
    if r.Ok? {
      if Key(epoch, events) !in s.receipts {
        NewBatchKeeps(s, epoch, events);
        assert r.value == (Appended(s, epoch, events), |s.log + events|);
      } else {
        assert ReceiptOk(s.log, Key(epoch, events), s.receipts[Key(epoch, events)]);
      }
    }
  }

  /** Repeating a batch in the same epoch gives the same answer and changes nothing. */
  lemma {:induction false} AppendIsIdempotent(s: Store, actor: int, token: int, epoch: nat, live: bool, events: Batch)
    requires Append(s, actor, token, epoch, live, events, events).Ok?
    ensures var r := Append(s, actor, token, epoch, live, events, events).value;
      Append(r.0, actor, token, epoch, live, events, events) == Ok(r)
  {
  }

  // ---- runs of the backend ----

  datatype Request =
    | OpenRequest(actor: int, canTakeover: bool, expected: Option<nat>, token: int)
    | AppendRequest(actor: int, token: int, epoch: nat, live: bool, id: Batch, events: Batch)
    | ReleaseRequest(actor: int, token: int, epoch: nat, live: bool)

  /** The store after one request; a refused request changes nothing. */
  function Process(s: Store, r: Request): Store {
    match r
    case OpenRequest(actor, canTakeover, expected, token) =>
      var o := OpenWriter(s, actor, canTakeover, expected, token);
      if o.Ok? then o.value else s
    case AppendRequest(actor, token, epoch, live, id, events) =>
      var a := Append(s, actor, token, epoch, live, id, events);
      if a.Ok? then a.value.0 else s
    case ReleaseRequest(actor, token, epoch, live) =>
      var o := ReleaseOwner(s, actor, token, epoch, live);
      if o.Ok? then o.value else s
  }

  function ProcessAll(s: Store, rs: seq<Request>): Store {
    if rs == [] then s else Process(ProcessAll(s, rs[..|rs| - 1]), rs[|rs| - 1])
  }

  lemma {:induction false} EpochNeverReturns(s: Store, rs: seq<Request>)
    ensures ProcessAll(s, rs).epoch >= s.epoch
  {
    if rs != [] { EpochNeverReturns(s, rs[..|rs| - 1]); }
  }

  /** Once a writer was opened or released, whatever requests follow: nobody who still uses the epoch before
      that can append, confirm or release any more, with any token. */
  lemma {:induction false} OldEpochIsFenced(s: Store, r: Request, rs: seq<Request>, actor: int, token: int, live: bool,
                                            id: Batch, events: Batch)
    requires !r.AppendRequest? && Process(s, r) != s
    ensures var later := ProcessAll(Process(s, r), rs);
      && Append(later, actor, token, s.epoch, live, id, events).Err?
      && Confirm(later, actor, token, s.epoch, live).Err?
      && ReleaseOwner(later, actor, token, s.epoch, live).Err?
  {
    EpochNeverReturns(Process(s, r), rs);
  }
}
