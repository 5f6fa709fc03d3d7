/**
 The paged `read` of a handle over a log that other writers extend between its
 pages. `logs(k)` is the log from which the backend answers the k-th page and
 `seen(k)` the handle's `observedLength` when that reply is processed, which
 overlapping reads of the same handle may have raised in the meantime.
 */
module PagedRead {
  import opened SessionStore

  ghost predicate Growing(logs: nat -> seq<Event>) {
    && (forall k: nat :: Contiguous(logs(k), 0))
    && (forall j: nat, k: nat :: j <= k ==> logs(j) <= logs(k))
  }

  datatype ReadFailure = Shrank

  datatype ReadResult = Events(events: seq<Event>) | Failed(failure: ReadFailure)

  function Min(a: nat, b: nat): nat {
    if a <= b then a else b
  }

  /** What a log holds in the range `offset`, `offset + length`. */
  function Range(log: seq<Event>, offset: nat, length: nat): (r: seq<Event>)
    ensures |r| <= length
    ensures offset <= |log| ==> |r| == Min(length, |log| - offset)
  {
    if offset >= |log| then [] else log[offset..offset + Min(length, |log| - offset)]
  }

  lemma {:induction false} PageIsRange(log: seq<Event>, offset: nat, count: nat)
    requires count <= MAX_PAGE_LENGTH && Contiguous(log, 0)
    ensures ReadEvents(log, offset, count) == Ok((Range(log, offset, count), |log|))
    ensures Contiguous(Range(log, offset, count), offset)
  {
    if offset < |log| { SliceStarts(log, offset, offset + Min(count, |log| - offset)); }
  }

  lemma {:induction false} RangeJoin(early: seq<Event>, late: seq<Event>, offset: nat, done: nat, count: nat)
    requires early <= late && done == |Range(early, offset, done)|
    ensures Range(early, offset, done) + Range(late, offset + done, count)
      == Range(late, offset, done + |Range(late, offset + done, count)|)
  {
    if done > 0 {
      var n := |Range(late, offset + done, count)|;
      assert early[offset..offset + done] == late[offset..offset + done];
      assert late[offset..offset + done] + late[offset + done..offset + done + n] == late[offset..offset + done + n];
    }
  }

  /** The read ends, and returns one contiguous slice of the log from which its last page came: at most
      `length` events, and at least everything in range that existed when it began. It fails only if
      some other read of the handle had seen a longer log than the page it was processing shows. */
  method Read(offset: nat, length: nat, batchSize: nat, logs: nat -> seq<Event>, seen: nat -> nat)
    returns (r: ReadResult, pages: nat)
    requires 1 <= batchSize <= MAX_PAGE_LENGTH && Growing(logs)
    ensures pages >= 1
    ensures r.Events? ==>
      && r.events == Range(logs(pages - 1), offset, |r.events|) && |r.events| <= length
      && Contiguous(r.events, offset)
      && Range(logs(0), offset, length) <= r.events
    ensures r.Events? ==> forall k: nat :: k < pages ==> seen(k) <= |logs(k)|
    ensures r.Failed? ==> r.failure == Shrank && |logs(pages - 1)| < seen(pages - 1)
  {
    var events: seq<Event> := [];
    var remaining: nat, cursor: nat := length, offset;
    ghost var last := logs(0);
    pages := 0;
    while true
      invariant cursor == offset + |events| && remaining == length - |events|
      invariant pages >= 1 ==> remaining > 0
      invariant last == logs(if pages == 0 then 0 else pages - 1)
      invariant events == Range(last, offset, |events|)
      invariant forall k: nat :: k < pages ==> seen(k) <= |logs(k)|
      decreases remaining, if pages == 0 then 1 else 0
    {
      var log := logs(pages);
      assert last <= log && logs(0) <= log;
      var batch, end := Page(last, log, offset, events, remaining, batchSize);
      last := log;
      pages := pages + 1;
      if end < seen(pages - 1) { return Failed(Shrank), pages; }
      events := events + batch;
      cursor, remaining := cursor + |batch|, remaining - |batch|;
      if cursor >= end || batch == [] || remaining == 0 {
        Enough(logs(0), log, offset, length, events);
        return Events(events), pages;
      }
    }
  }

  /** One page: the requested count, and the contiguity check that a gap-free log always passes. */
  method Page(ghost last: seq<Event>, log: seq<Event>, offset: nat, events: seq<Event>, remaining: nat, batchSize: nat)
    returns (batch: seq<Event>, end: nat)
    requires 1 <= batchSize <= MAX_PAGE_LENGTH && last <= log && Contiguous(log, 0)
    requires events == Range(last, offset, |events|)
    ensures |batch| <= remaining && end == |log|
    ensures events + batch == Range(log, offset, |events| + |batch|)
    ensures Contiguous(batch, offset + |events|)
    ensures batch == [] ==> remaining == 0 || offset + |events| >= |log|
  {
    var count := if remaining <= batchSize then remaining else batchSize;
    PageIsRange(log, offset + |events|, count);
    RangeJoin(last, log, offset, |events|, count);
    PageEmpty(log, offset + |events|, count);
    var page := ReadEvents(log, offset + |events|, count);
    batch, end := page.value.0, page.value.1;
  }

  lemma {:induction false} PageEmpty(log: seq<Event>, offset: nat, count: nat)
    ensures Range(log, offset, count) == [] <==> count == 0 || offset >= |log|
  {
  }

  lemma {:induction false} Enough(first: seq<Event>, last: seq<Event>, offset: nat, length: nat, events: seq<Event>)
    requires first <= last && |events| <= length && events == Range(last, offset, |events|)
    requires offset + |events| >= |last| || |events| == length
    requires Contiguous(last, 0)
    ensures Contiguous(events, offset)
    ensures Range(first, offset, length) <= events
  {
    if offset < |last| { SliceStarts(last, offset, offset + |events|); }
  }

  /** Reads of one handle that do not overlap never fail: the observed length is what this read saw last. */
  method ReadAlone(offset: nat, length: nat, batchSize: nat, logs: nat -> seq<Event>, observedLength: nat)
    returns (events: seq<Event>, observed: nat)
    requires 1 <= batchSize <= MAX_PAGE_LENGTH && Growing(logs) && observedLength <= |logs(0)|
    ensures exists k: nat :: observed == |logs(k)| && events == Range(logs(k), offset, |events|)
    ensures |events| <= length && Contiguous(events, offset) && Range(logs(0), offset, length) <= events
  {
    var seen: nat -> nat := (k: nat) => if k == 0 then observedLength else |logs(k - 1)|;
    var r, pages := Read(offset, length, batchSize, logs, seen);
    assert pages >= 2 ==> logs(pages - 2) <= logs(pages - 1);
    events := r.events;
    observed := |logs(pages - 1)|;
  }
}
