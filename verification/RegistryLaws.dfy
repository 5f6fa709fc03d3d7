/**
 Which calls the registry accepts and what they return, told by the histories of
 adopted, handed-out and released handles.
 */
module RegistryLaws {
  import opened Options
  import opened HandleRegistry

  /** The newest write handle of the session has not been released. */
  predicate HasWriter(r: Registry, id: int) {
    id in r.newest && r.newest[id] in r.handles
  }

  /** A session has a writer iff its newest write handle is not released, and it is that handle. */
  lemma {:induction false} WriterIff(es: seq<Event>, id: int)
    ensures var r := Run(es);
      && (id in r.writers <==> HasWriter(r, id))
      && (HasWriter(r, id) ==> r.writers[id] == r.newest[id])
  {
    EveryRun(es);
    assert WriterOk(Run(es), id);
  }

  /** A takeover resume is accepted iff the session has no writer here and no other resume of it is running; a
      refused one changes nothing. */
  lemma {:induction false} ResumeAcceptedIff(es: seq<Event>, id: int)
    ensures var r := Run(es);
      var (r', accepted) := BeginResume(r, id);
      && (accepted <==> !HasWriter(r, id) && id !in r.running)
      && (!accepted ==> r' == r)
      && (accepted ==> id in r'.running && r'.running[id] == Requesting && r'.handles == r.handles)
  {
    EveryRun(es);
    assert WriterOk(Run(es), id) && ReservationOk(Run(es), id);
  }

  /** The handle that a running resume holds ready: its own, not released, not handed out. */
  predicate Ready(r: Registry, id: int, h: Handle) {
    && id in r.running && !r.running[id].Requesting? && r.running[id].reserved == h
    && h in r.handles && h !in r.handedOut
  }

  /** A write open gets a handle without a request iff a running resume of the session holds that one ready, and
      then no later open gets it. */
  lemma {:induction false} OpenGetsIff(es: seq<Event>, id: int, h: Handle)
    ensures var r := Run(es);
      && (TakeReserved(r, id).1 == Some(h) <==> Ready(r, id, h))
      && (Ready(r, id, h) ==>
            var r' := Run(es + [OpenReserved(id)]);
            r'.handedOut == r.handedOut + [h] && TakeReserved(r', id).1 == None && r'.handles == r.handles)
  {
    EveryRun(es);
    assert ReservationOk(Run(es), id);
    RunNext(es, OpenReserved(id));
  }

  /** A callback that returned makes the resume succeed iff it returned normally and nobody has to use the handle
      any more: it was handed out, or released. */
  lemma {:induction false} ResumeOutcome(es: seq<Event>, id: int, h: Handle, ok: bool)
    requires id in Run(es).running && Run(es).running[id] == Resuming(h)
    ensures var r := Run(es);
      var (r', success) := FinishResume(r, id, h, ok);
      && (success <==> ok && (h in r.handedOut || h !in r.handles))
      && (success ==> id !in r'.running)
      && (!success ==> id in r'.running && r'.running[id] == Closing(h))
      && r'.handles == r.handles && r'.writers == r.writers
  {
    EveryRun(es);
    assert ReservationOk(Run(es), id);
  }

  ghost predicate WritersWrite(r: Registry) {
    && (forall id :: id in r.newest ==> r.newest[id].write)
    && (forall id :: id in r.running && !r.running[id].Requesting? ==> r.running[id].reserved.write)
  }

  lemma {:induction false} WritersWriteNext(r: Registry, e: Event)
    requires WritersWrite(r)
    ensures WritersWrite(Next(r, e))
  {
  }

  /** Writers and handed-out reservations were opened for writing. */
  lemma {:induction false} WritersCanWrite(es: seq<Event>, id: int)
    ensures WritersWrite(Run(es))
    ensures var r := Run(es);
      && (id in r.writers ==> r.writers[id].write)
      && (TakeReserved(r, id).1.Some? ==> TakeReserved(r, id).1.value.write)
  {
    WritersHold(es);
    EveryRun(es);
    assert WriterOk(Run(es), id) && ReservationOk(Run(es), id);
  }

  lemma {:induction false} WritersHold(es: seq<Event>)
    ensures WritersWrite(Run(es))
  {
    if es != [] {
      WritersHold(es[..|es| - 1]);
      WritersWriteNext(Run(es[..|es| - 1]), es[|es| - 1]);
    }
  }

  /** A new handle was never seen before; for writing it becomes the writer at once, and a reader leaves the writer
      alone. */
  lemma {:induction false} AdoptedIsNew(es: seq<Event>, id: int, write: bool)
    ensures var r := Run(es);
      var (r', h) := Adopt(r, id, write);
      && h !in r.handles && h !in r.handedOut && (forall k :: k in r.newest ==> r.newest[k] != h)
      && h in r'.handles && h.id == id && h.write == write
      && (write ==> id in r'.writers && r'.writers[id] == h)
      && (!write ==> r'.writers == r.writers)
      && (forall k :: k != id ==> (k in r'.writers <==> k in r.writers))
  {
    EveryRun(es);
  }

  /** A release takes exactly this handle away: every other handle stays, and every other session keeps its writer
      and its reservation. */
  lemma {:induction false} ReleaseTakesOne(es: seq<Event>, h: Handle, id: int)
    ensures var r := Run(es);
      var r' := Run(es + [Released(h)]);
      && (forall g :: g in r'.handles <==> g in r.handles && g != h)
      && (id in r'.writers <==> id in r.writers && r.writers[id] != h)
      && (id in r'.writers ==> r'.writers[id] == r.writers[id])
      && (id in r'.takeovers <==> id in r.takeovers && r.takeovers[id] != h)
  {
    EveryRun(es);
    assert WriterOk(Run(es), id) && ReservationOk(Run(es), id);
    RunNext(es, Released(h));
  }
}
