/**
 The handle registry of `CyreneSessionPersistence`: all live handles, the
 current writer of each session, and the takeover reservations that
 `resumeWithTakeover` leaves for the next write open. Requests are answered by
 the environment; one value of `Event` is one atomic piece of registry code.
 */
module HandleRegistry {
  import opened Options

  /** A handle object: `serial` is its identity. */
  datatype Handle = Handle(id: int, serial: nat, write: bool)

  /** How far a running `resumeWithTakeover` is. */
  datatype Phase = Requesting | Resuming(reserved: Handle) | Closing(reserved: Handle)

  /** The fields of the object, the running resumes, and two histories: the newest writer adopted for
      each session and the reservations handed out so far. */
  datatype Registry = Registry(
    handles: set<Handle>, writers: map<int, Handle>, takeovers: map<int, Handle>, requests: set<int>, nextSerial: nat,
    running: map<int, Phase>, newest: map<int, Handle>, handedOut: seq<Handle>)

  datatype Event =
    | Adopted(id: int, write: bool)           // create, open or takeover was answered
    | OpenReserved(id: int)                   // a write open that finds a reservation
    | ResumeCalled(id: int)
    | TakeoverAnswered(id: int, ok: bool)
    | ResumeReturned(id: int, ok: bool)       // the upstream resume callback settled
    | CloseSettled(id: int)                   // the failed resume has closed its handle
    | Released(handle: Handle)                // the close of a handle ends

  function Empty(): Registry {
    Registry({}, map[], map[], {}, 0, map[], map[], [])
  }

  function Without(m: map<int, Handle>, id: int): (r: map<int, Handle>)
    ensures id !in r
    ensures forall k :: k in m && k != id ==> k in r && r[k] == m[k]
    ensures forall k :: k in r ==> k in m
  {
    map k | k in m && k != id :: m[k]
  }

  function Adopt(r: Registry, id: int, write: bool): (Registry, Handle) {
    var h := Handle(id, r.nextSerial, write);
    (r.(handles := r.handles + {h}, nextSerial := r.nextSerial + 1,
        writers := if write then r.writers[id := h] else r.writers,
        newest := if write then r.newest[id := h] else r.newest), h)
  }

  /** `release`: only this exact handle goes. */
  function Release(r: Registry, h: Handle): Registry {
    r.(handles := r.handles - {h},
       writers := if h.id in r.writers && r.writers[h.id] == h then Without(r.writers, h.id) else r.writers,
       takeovers := if h.id in r.takeovers && r.takeovers[h.id] == h then Without(r.takeovers, h.id) else r.takeovers)
  }

  /** A write open that finds a reservation takes it, and the reservation is gone. */
  function TakeReserved(r: Registry, id: int): (Registry, Option<Handle>) {
    if id in r.takeovers then
      (r.(takeovers := Without(r.takeovers, id), handedOut := r.handedOut + [r.takeovers[id]]), Some(r.takeovers[id]))
    else (r, None)
  }

  /** The `finally` block of `resumeWithTakeover`. */
  function EndResume(r: Registry, id: int): Registry {
    r.(takeovers := Without(r.takeovers, id), requests := r.requests - {id},
       running := map k | k in r.running && k != id :: r.running[k])
  }

  function BeginResume(r: Registry, id: int): (Registry, bool) {
    if id in r.writers || id in r.requests then (r, false)
    else (r.(requests := r.requests + {id}, running := r.running[id := Requesting]), true)
  }

  function Reserve(r: Registry, id: int): Registry {
    var (r', h) := Adopt(r, id, true);
    r'.(takeovers := r'.takeovers[id := h], running := r'.running[id := Resuming(h)])
  }

  /** The resume succeeds when the callback did and no reservation is left. */
  function FinishResume(r: Registry, id: int, h: Handle, ok: bool): (Registry, bool) {
    if ok && id !in r.takeovers then (EndResume(r, id), true)
    else (r.(running := r.running[id := Closing(h)]), false)
  }

  function Next(r: Registry, e: Event): Registry {
    match e
    case Adopted(id, write) => Adopt(r, id, write).0
    case OpenReserved(id) => TakeReserved(r, id).0
    case ResumeCalled(id) => BeginResume(r, id).0
    case TakeoverAnswered(id, ok) =>
      if id !in r.running || r.running[id] != Requesting then r
      else if ok then Reserve(r, id) else EndResume(r, id)
    case ResumeReturned(id, ok) =>
      if id !in r.running || !r.running[id].Resuming? then r else FinishResume(r, id, r.running[id].reserved, ok).0
    case CloseSettled(id) =>
      // The close of a handle settles only after the handle has been released.
      if id !in r.running || !r.running[id].Closing? || r.running[id].reserved in r.handles then r else EndResume(r, id)
    case Released(h) => Release(r, h)
  }

  function Run(es: seq<Event>): Registry {
    if es == [] then Empty() else Next(Run(es[..|es| - 1]), es[|es| - 1])
  }

  // ---------------------------------------------------------------------
  // Invariant
  // ---------------------------------------------------------------------

  /** The writer of a session is its newest write handle, for as long as that one is not released. */
  ghost predicate WriterOk(r: Registry, id: int) {
    && (id in r.writers <==> id in r.newest && r.newest[id] in r.handles)
    && (id in r.writers ==> r.writers[id] == r.newest[id])
    && (id in r.newest ==> r.newest[id].id == id)
  }

  predicate Holds(r: Registry, id: int, h: Handle) {
    id in r.running && !r.running[id].Requesting? && r.running[id].reserved == h
  }

  /** A reservation is the handle of a running resume that was neither released nor handed out. */
  ghost predicate ReservationOk(r: Registry, id: int) {
    && (id in r.takeovers ==>
          Holds(r, id, r.takeovers[id]) && r.takeovers[id] in r.handles && r.takeovers[id] !in r.handedOut)
    && (id in r.running && !r.running[id].Requesting? ==>
          var h := r.running[id].reserved;
          h.id == id && h.serial < r.nextSerial && (id in r.takeovers || h in r.handedOut || h !in r.handles))
    && (id in r.requests <==> id in r.running)
  }

  ghost predicate SerialsOk(r: Registry) {
    && (forall h :: h in r.handles ==> h.serial < r.nextSerial)
    && (forall id :: id in r.newest ==> r.newest[id].serial < r.nextSerial)
    && (forall h :: h in r.handedOut ==> h.serial < r.nextSerial)
  }

  ghost predicate Distinct(s: seq<Handle>) {
    forall i, j :: 0 <= i < j < |s| ==> s[i] != s[j]
  }

  ghost predicate Inv(r: Registry) {
    && (forall id :: WriterOk(r, id))
    && (forall id :: ReservationOk(r, id))
    && SerialsOk(r)
    && Distinct(r.handedOut)
  }

  lemma {:induction false} AdoptKeeps(r: Registry, id: int, write: bool)
    requires Inv(r)
    ensures Inv(Adopt(r, id, write).0)
  {
    var (r', h) := Adopt(r, id, write);
    forall k ensures WriterOk(r', k) { assert WriterOk(r, k); }
    forall k ensures ReservationOk(r', k) { assert ReservationOk(r, k); }
  }

  lemma {:induction false} ReleaseKeeps(r: Registry, h: Handle)
    requires Inv(r)
    ensures Inv(Release(r, h))
  {
    var r' := Release(r, h);
    forall k ensures WriterOk(r', k) { assert WriterOk(r, k); }
    forall k ensures ReservationOk(r', k) { assert ReservationOk(r, k); }
  }

  lemma {:induction false} TakeKeeps(r: Registry, id: int)
    requires Inv(r)
    ensures Inv(TakeReserved(r, id).0)
  {
    var r' := TakeReserved(r, id).0;
    assert ReservationOk(r, id);
    forall k ensures WriterOk(r', k) { assert WriterOk(r, k); }
    forall k ensures ReservationOk(r', k) { assert ReservationOk(r, k) && ReservationOk(r, id); }
  }

  lemma {:induction false} EndKeeps(r: Registry, id: int)
    requires Inv(r)
    ensures Inv(EndResume(r, id))
  {
    var r' := EndResume(r, id);
    forall k ensures WriterOk(r', k) { assert WriterOk(r, k); }
    forall k ensures ReservationOk(r', k) { assert ReservationOk(r, k); }
  }

  lemma {:induction false} BeginKeeps(r: Registry, id: int)
    requires Inv(r)
    ensures Inv(BeginResume(r, id).0)
  {
    var r' := BeginResume(r, id).0;
    forall k ensures WriterOk(r', k) { assert WriterOk(r, k); }
    forall k ensures ReservationOk(r', k) { assert ReservationOk(r, k); }
  }

  lemma {:induction false} ReserveKeeps(r: Registry, id: int)
    requires Inv(r) && id in r.running && r.running[id] == Requesting
    ensures Inv(Reserve(r, id))
  {
    AdoptKeeps(r, id, true);
    var (r1, h) := Adopt(r, id, true);
    var r' := Reserve(r, id);
    assert forall k :: WriterOk(r1, k) ==> WriterOk(r', k);
    forall k ensures ReservationOk(r', k) { assert ReservationOk(r, k) && ReservationOk(r1, k); }
  }

  lemma {:induction false} FinishKeeps(r: Registry, id: int, h: Handle, ok: bool)
    requires Inv(r) && id in r.running && r.running[id] == Resuming(h)
    ensures Inv(FinishResume(r, id, h, ok).0)
  {
    EndKeeps(r, id);
    var r' := r.(running := r.running[id := Closing(h)]);
    forall k ensures WriterOk(r', k) { assert WriterOk(r, k); }
    forall k ensures ReservationOk(r', k) { assert ReservationOk(r, k); }
  }

  lemma {:induction false} NextKeeps(r: Registry, e: Event)
    requires Inv(r)
    ensures Inv(Next(r, e))
  {
    match e
    case Adopted(id, write) => AdoptKeeps(r, id, write);
    case OpenReserved(id) => TakeKeeps(r, id);
    case ResumeCalled(id) => BeginKeeps(r, id);
    case TakeoverAnswered(id, ok) =>
      EndKeeps(r, id);
      if id in r.running && r.running[id] == Requesting { ReserveKeeps(r, id); }
    case ResumeReturned(id, ok) =>
      if id in r.running && r.running[id].Resuming? { FinishKeeps(r, id, r.running[id].reserved, ok); }
    case CloseSettled(id) => EndKeeps(r, id);
    case Released(h) => ReleaseKeeps(r, h);
  }

  lemma {:induction false} EveryRun(es: seq<Event>)
    ensures Inv(Run(es))
  {
    if es != [] {
      EveryRun(es[..|es| - 1]);
      NextKeeps(Run(es[..|es| - 1]), es[|es| - 1]);
    }
  }

  /** After every run: writers and reservations are live handles of their own session, no reservation
      outlives its resume, and no reserved handle was handed out twice. */
  lemma {:induction false} RegistrySafety(es: seq<Event>, id: int)
    ensures var r := Run(es);
      && (id in r.writers ==>
            r.writers[id] in r.handles && r.writers[id].id == id && id in r.newest && r.writers[id] == r.newest[id])
      && (id in r.takeovers ==> r.takeovers[id] in r.handles && r.takeovers[id].id == id && id in r.running)
      && Distinct(r.handedOut)
  {
    EveryRun(es);
    assert WriterOk(Run(es), id) && ReservationOk(Run(es), id);
  }

  /** Releasing an older handle leaves the newest writer of the session in place. */
  lemma {:induction false} SuccessorStays(es: seq<Event>, older: Handle)
    requires var r := Run(es); older.id in r.newest && r.newest[older.id] != older && r.newest[older.id] in r.handles
    ensures var r := Run(es + [Released(older)]);
      older.id in r.writers && r.writers[older.id] == Run(es).newest[older.id]
  {
    EveryRun(es);
    assert WriterOk(Run(es), older.id);
    assert (es + [Released(older)])[..|es|] == es;
  }

  /** Whatever the outcome, the end of a resume leaves no reservation for its session. */
  lemma {:induction false} ResumeLeavesNoReservation(es: seq<Event>, e: Event, id: int)
    requires id in Run(es).running && id !in Run(es + [e]).running
    ensures id !in Run(es + [e]).takeovers && id !in Run(es + [e]).requests
  {
    EveryRun(es + [e]);
    assert ReservationOk(Run(es + [e]), id);
  }

  /** When the callback returns normally, the resume succeeds iff its handle was handed out or has
      already been released; in the second case nobody holds a writer although it reports success. */
  lemma {:induction false} ResumeSucceedsIff(es: seq<Event>, id: int, h: Handle)
    requires id in Run(es).running && Run(es).running[id] == Resuming(h)
    ensures FinishResume(Run(es), id, h, true).1 <==> (h in Run(es).handedOut || h !in Run(es).handles)
  {
    EveryRun(es);
    assert ReservationOk(Run(es), id);
  }

  lemma {:induction false} RunNext(es: seq<Event>, e: Event)
    ensures Run(es + [e]) == Next(Run(es), e)
  {
    assert (es + [e])[..|es|] == es;
  }

  /** Session 1 with a running resume that holds `h`, which may be the only handle or already gone. */
  function Taken(h: Handle, live: bool): Registry {
    var m := if live then map[1 := h] else map[];
    Registry(if live then {h} else {}, m, m, {1}, 1, map[1 := Resuming(h)], map[1 := h], [])
  }

  lemma {:induction false} TakenSteps()
    ensures var h := Handle(1, 0, true);
      && Next(Next(Empty(), ResumeCalled(1)), TakeoverAnswered(1, true)) == Taken(h, true)
      && Next(Taken(h, true), Released(h)) == Taken(h, false)
  {
    var h := Handle(1, 0, true);
    assert Next(Empty(), ResumeCalled(1)).running == map[1 := Requesting];
    assert Without(map[1 := h], 1) == map[];
  }

  lemma {:induction false} TakenSucceeds(h: Handle)
    ensures FinishResume(Taken(h, false), 1, h, true) == (EndResume(Taken(h, false), 1), true)
    ensures 1 !in Next(Taken(h, false), ResumeReturned(1, true)).running
  {
  }

  /** The second case happens: the reserved handle is released before anybody opened it, and the resume
      still succeeds, with no writer and nothing handed out. */
  lemma {:induction false} ResumeWithoutWriter()
    ensures var h := Handle(1, 0, true);
      var r := Run([ResumeCalled(1)] + [TakeoverAnswered(1, true)] + [Released(h)]);
      && 1 in r.running && r.running[1] == Resuming(h)
      && FinishResume(r, 1, h, true).1 && r.handedOut == [] && 1 !in r.writers
  {
    var h := Handle(1, 0, true);
    assert [] + [ResumeCalled(1)] == [ResumeCalled(1)];
    RunNext([], ResumeCalled(1));
    RunNext([ResumeCalled(1)], TakeoverAnswered(1, true));
    RunNext([ResumeCalled(1)] + [TakeoverAnswered(1, true)], Released(h));
    TakenSteps();
    TakenSucceeds(h);
  }

  // ---------------------------------------------------------------------
  // The object
  // ---------------------------------------------------------------------

  class CyreneSessionPersistence {
    var handles: set<Handle>
    var writers: map<int, Handle>
    var takeovers: map<int, Handle>
    var takeoverRequests: set<int>
    var nextSerial: nat
    ghost var running: map<int, Phase>
    ghost var newest: map<int, Handle>
    ghost var handedOut: seq<Handle>

    ghost function View(): Registry
      reads this
    {
      Registry(handles, writers, takeovers, takeoverRequests, nextSerial, running, newest, handedOut)
    }

    ghost predicate Valid()
      reads this
    {
      Inv(View())
    }

    constructor ()
      ensures Valid() && View() == Empty()
    {
      EveryRun([]);
      handles, writers, takeovers, takeoverRequests, nextSerial := {}, map[], map[], {}, 0;
      running, newest, handedOut := map[], map[], [];
    }

    method AdoptRemote(id: int, write: bool) returns (handle: Handle)
      requires Valid()
      modifies this
      ensures Valid() && (View(), handle) == Adopt(old(View()), id, write)
    {
      AdoptKeeps(View(), id, write);
      handle := Handle(id, nextSerial, write);
      nextSerial := nextSerial + 1;
      handles := handles + {handle};
      if write {
        writers := writers[id := handle];
        newest := newest[id := handle];
      }
    }

    method OpenWrite(id: int) returns (reserved: Option<Handle>)
      requires Valid()
      modifies this
      ensures Valid() && (View(), reserved) == TakeReserved(old(View()), id)
    {
      TakeKeeps(View(), id);
      if id !in takeovers { return None; }
      reserved := Some(takeovers[id]);
      handedOut := handedOut + [takeovers[id]];
      takeovers := Without(takeovers, id);
    }

    method ReleaseHandle(handle: Handle)
      requires Valid()
      modifies this`handles, this`writers, this`takeovers
      ensures Valid() && View() == Release(old(View()), handle)
    {
      ReleaseKeeps(View(), handle);
      handles := handles - {handle};
      if handle.id in writers && writers[handle.id] == handle { writers := Without(writers, handle.id); }
      if handle.id in takeovers && takeovers[handle.id] == handle { takeovers := Without(takeovers, handle.id); }
    }

    method ResumeWithTakeover(id: int) returns (accepted: bool)
      requires Valid()
      modifies this`takeoverRequests, this`running
      ensures Valid() && (View(), accepted) == BeginResume(old(View()), id)
    {
      BeginKeeps(View(), id);
      accepted := id !in writers && id !in takeoverRequests;
      if accepted {
        takeoverRequests := takeoverRequests + {id};
        running := running[id := Requesting];
      }
    }

    method OnTakeover(id: int) returns (reserved: Handle)
      requires Valid() && id in running && running[id] == Requesting
      modifies this
      ensures Valid() && View() == Reserve(old(View()), id) && reserved == Adopt(old(View()), id, true).1
    {
      ReserveKeeps(View(), id);
      reserved := AdoptRemote(id, true);
      takeovers := takeovers[id := reserved];
      running := running[id := Resuming(reserved)];
    }

    method OnResumed(id: int, reserved: Handle, ok: bool) returns (success: bool)
      requires Valid() && id in running && running[id] == Resuming(reserved)
      modifies this
      ensures Valid() && (View(), success) == FinishResume(old(View()), id, reserved, ok)
    {
      FinishKeeps(View(), id, reserved, ok);
      success := ok && id !in takeovers;
      if success { Finally(id); } else { running := running[id := Closing(reserved)]; }
    }

    method Finally(id: int)
      requires Valid()
      modifies this
      ensures Valid() && View() == EndResume(old(View()), id)
      ensures id !in takeovers && id !in takeoverRequests
    {
      EndKeeps(View(), id);
      takeovers := Without(takeovers, id);
      takeoverRequests := takeoverRequests - {id};
      running := map k | k in running && k != id :: running[k];
    }
  }
}
