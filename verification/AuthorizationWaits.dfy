/**
 Resuming a task that waits for a renewed authorization: the recorded waits are
 collapsed by a key joined with NUL characters, and every collapsed wait must be
 exceeded by a fresh health check.
 */
module AuthorizationWaits {
  import opened Options
  import opened NulKeys

  datatype Wait = Wait(connection: Option<string>, authorization: Option<string>, callId: Option<string>,
                       generation: Option<int>)

  /** A stored task event, as far as it matters here. */
  datatype TaskEvent = Other | AuthorizationRequired(wait: Wait)

  function Or(s: Option<string>): string {
    if s.Some? then s.value else ""
  }

  function Generation(w: Wait): int {
    if w.generation.Some? then w.generation.value else -1
  }

  function Key(w: Wait): string {
    Or(w.connection) + NUL + Or(w.authorization) + NUL + Or(w.callId)
  }

  /** The value of a `Map` entry, in insertion order. */
  function Find(ws: seq<Wait>, key: string): Option<Wait> {
    if ws == [] then None else if Key(ws[0]) == key then Some(ws[0]) else Find(ws[1..], key)
  }

  function Put(ws: seq<Wait>, w: Wait): seq<Wait> {
    if ws == [] then [w] else if Key(ws[0]) == Key(w) then [w] + ws[1..] else [ws[0]] + Put(ws[1..], w)
  }

  lemma {:induction false} FindPut(ws: seq<Wait>, w: Wait, key: string)
    ensures Find(Put(ws, w), key) == if key == Key(w) then Some(w) else Find(ws, key)
  {
    if ws != [] && Key(ws[0]) != Key(w) { FindPut(ws[1..], w, key); }
  }

  lemma {:induction false} FoundIsThere(ws: seq<Wait>, key: string)
    requires Find(ws, key).Some?
    ensures Find(ws, key).value in ws && Key(Find(ws, key).value) == key
  {
    if Key(ws[0]) != key { FoundIsThere(ws[1..], key); }
  }

  lemma {:induction false} PutMembers(ws: seq<Wait>, w: Wait, x: Wait)
    requires x in Put(ws, w)
    ensures x == w || x in ws
  {
    if ws != [] && Key(ws[0]) != Key(w) && x != ws[0] { PutMembers(ws[1..], w, x); }
  }

  /** One pass of the loop over the events: a higher generation replaces the wait kept under its key. */
  function Keep(kept: seq<Wait>, e: TaskEvent): seq<Wait> {
    if e.Other? then kept
    else
      var previous := Find(kept, Key(e.wait));
      if previous.None? || Generation(e.wait) > Generation(previous.value) then Put(kept, e.wait) else kept
  }

  function Collapse(events: seq<TaskEvent>): seq<Wait> {
    if events == [] then [] else Keep(Collapse(events[..|events| - 1]), events[|events| - 1])
  }

  method AuthorizationWaitReceipts(events: seq<TaskEvent>) returns (kept: seq<Wait>)
    ensures kept == Collapse(events)
  {
    kept := [];
    for i := 0 to |events|
      invariant kept == Collapse(events[..i])
    {
      assert events[..i + 1][..i] == events[..i];
      if events[i].AuthorizationRequired? {
        var receipt := events[i].wait;
        var previous := Find(kept, Key(receipt));
        if previous.None? || Generation(receipt) > Generation(previous.value) { kept := Put(kept, receipt); }
      }
    }
    assert events[..|events|] == events;
  }

  predicate CoversOne(kept: seq<Wait>, e: TaskEvent) {
    e.AuthorizationRequired? ==>
      var f := Find(kept, Key(e.wait)); f.Some? && Generation(f.value) >= Generation(e.wait)
  }

  /** For every recorded wait, `kept` has one with the same key and no lower generation; and all it has
      was recorded. */
  ghost predicate Covers(kept: seq<Wait>, events: seq<TaskEvent>) {
    && (forall e :: e in events ==> CoversOne(kept, e))
    && (forall w :: w in kept ==> AuthorizationRequired(w) in events)
  }

  lemma {:induction false} KeepCovers(kept: seq<Wait>, e: TaskEvent, d: TaskEvent)
    ensures CoversOne(Keep(kept, e), e)
    ensures CoversOne(kept, d) ==> CoversOne(Keep(kept, e), d)
  {
    if e.AuthorizationRequired? {
      FindPut(kept, e.wait, Key(e.wait));
      if d.AuthorizationRequired? { FindPut(kept, e.wait, Key(d.wait)); }
    }
  }

  /** The highest recorded generation of each key is kept. */
  lemma {:induction false} CollapseCovers(events: seq<TaskEvent>)
    ensures Covers(Collapse(events), events)
  {
    if events != [] {
      var past, e := events[..|events| - 1], events[|events| - 1];
      var kept := Collapse(past);
      CollapseCovers(past);
      forall d | d in events ensures CoversOne(Collapse(events), d) { KeepCovers(kept, e, d); }
      forall w | w in Collapse(events) ensures AuthorizationRequired(w) in events {
        if w !in kept { PutMembers(kept, e.wait, w); }
      }
    }
  }

  // ---------------------------------------------------------------------
  // resumeTask
  // ---------------------------------------------------------------------

  /** What a health check returned; `ready` means logged in and valid. */
  datatype Health = Health(connection: string, authorization: string, ready: bool, generation: int)

  predicate Complete(w: Wait) {
    Or(w.connection) != "" && Or(w.authorization) != "" && w.generation.Some?
  }

  predicate Renewed(w: Wait, h: Health) {
    && Complete(w) && h.ready
    && h.connection == w.connection.value && h.authorization == w.authorization.value
    && h.generation > w.generation.value
  }

  /** There is a wait, and every kept one is strictly exceeded; `checks(k)` is the k-th health check. */
  ghost predicate CanResume(events: seq<TaskEvent>, checks: nat -> Health) {
    Collapse(events) != [] && forall k: nat :: k < |Collapse(events)| ==> Renewed(Collapse(events)[k], checks(k))
  }

  /** The part of `resumeTask` that decides. */
  method Resumable(events: seq<TaskEvent>, checks: nat -> Health) returns (ok: bool)
    ensures ok <==> CanResume(events, checks)
    ensures ok <==>
      && Collapse(events) != []
      && forall k: nat :: k < |Collapse(events)| ==>
        Named(Collapse(events)[k]) && Exceeds(checks(k), Collapse(events)[k])
  {
    ResumesIff(events, checks);
    var kept := AuthorizationWaitReceipts(events);
    ok := kept != [];
    var k := 0;
    while ok && k < |kept|
      invariant k <= |kept|
      invariant ok ==> kept != []
      invariant ok ==> forall j: nat :: j < k ==> Renewed(kept[j], checks(j))
      invariant !ok && kept != [] ==> exists j: nat :: j < |kept| && !Renewed(kept[j], checks(j))
    {
      if !Renewed(kept[k], checks(k)) { ok := false; }
      k := k + 1;
    }
  }

  /** The decision, field by field: there is a wait, every kept one names a connection, an authorization and
      a generation, and its check found the very target ready under a higher generation. */
  lemma {:induction false} ResumesIff(events: seq<TaskEvent>, checks: nat -> Health)
    ensures CanResume(events, checks) <==>
      && Collapse(events) != []
      && forall k: nat :: k < |Collapse(events)| ==>
        Named(Collapse(events)[k]) && Exceeds(checks(k), Collapse(events)[k])
  {
    if forall k: nat :: k < |Collapse(events)| ==>
      Named(Collapse(events)[k]) && Exceeds(checks(k), Collapse(events)[k])
    {
      forall k: nat | k < |Collapse(events)| ensures Renewed(Collapse(events)[k], checks(k)) { }
    }
    if CanResume(events, checks) {
      forall k: nat | k < |Collapse(events)|
        ensures Named(Collapse(events)[k]) && Exceeds(checks(k), Collapse(events)[k])
      {
        assert Renewed(Collapse(events)[k], checks(k));
      }
    }
  }

  /** One check that is not ready, names another target or is no newer refuses the resume. */
  lemma {:induction false} OneCheckRefuses(events: seq<TaskEvent>, checks: nat -> Health, k: nat)
    requires k < |Collapse(events)|
    requires var w, h := Collapse(events)[k], checks(k);
      || !h.ready || Some(h.connection) != w.connection || Some(h.authorization) != w.authorization
      || w.generation.None? || h.generation <= w.generation.value
    ensures !CanResume(events, checks)
  {
    ResumesIff(events, checks);
    assert !Exceeds(checks(k), Collapse(events)[k]);
  }

  /** The wait names a target and a generation. */
  predicate Named(w: Wait) {
    && w.connection.Some? && w.connection.value != ""
    && w.authorization.Some? && w.authorization.value != ""
    && w.generation.Some?
  }

  /** The check found this connection and authorization logged in and valid, under a higher generation. */
  predicate Exceeds(h: Health, w: Wait) {
    && h.ready
    && w.connection == Some(h.connection) && w.authorization == Some(h.authorization)
    && w.generation.Some? && h.generation > w.generation.value
  }

  /** Every recorded wait with a generation was exceeded by a check of its own connection and authorization. */
  ghost predicate AllExceeded(events: seq<TaskEvent>, checks: nat -> Health) {
    forall w :: AuthorizationRequired(w) in events && w.generation.Some? ==> Exceeded(w, |Collapse(events)|, checks)
  }

  ghost predicate Exceeded(w: Wait, n: nat, checks: nat -> Health) {
    exists k: nat :: k < n && Exceeds(checks(k), w)
  }

  // ---------------------------------------------------------------------
  // When a resume is safe
  // ---------------------------------------------------------------------

  /** Same connection and authorization, and no lower generation. */
  predicate Represents(r: Wait, w: Wait) {
    && r.connection == w.connection && r.authorization == w.authorization
    && r.generation.Some? && w.generation.Some? && r.generation.value >= w.generation.value
  }

  ghost predicate IsRepresented(w: Wait, kept: seq<Wait>) {
    exists r :: r in kept && Represents(r, w)
  }

  /** Every recorded wait with a generation has a kept wait of its own target and no lower generation. */
  ghost predicate Represented(events: seq<TaskEvent>) {
    forall w :: AuthorizationRequired(w) in events && w.generation.Some? ==> IsRepresented(w, Collapse(events))
  }

  ghost predicate AllComplete(kept: seq<Wait>) {
    forall r :: r in kept ==> Complete(r)
  }

  lemma {:induction false} RepresentedIsExceeded(events: seq<TaskEvent>, checks: nat -> Health)
    requires CanResume(events, checks) && Represented(events)
    ensures AllExceeded(events, checks)
  {
    var kept := Collapse(events);
    forall w | AuthorizationRequired(w) in events && w.generation.Some? ensures Exceeded(w, |kept|, checks) {
      assert IsRepresented(w, kept);
      var r :| r in kept && Represents(r, w);
      var k: nat :| k < |kept| && kept[k] == r;
      assert Renewed(r, checks(k));
      assert Exceeds(checks(k), w);
    }
  }

  /** Checks that renew every kept wait by as little as possible. */
  function Barely(kept: seq<Wait>): nat -> Health
    requires forall r :: r in kept ==> Complete(r)
  {
    (k: nat) =>
      if k < |kept| then Health(Or(kept[k].connection), Or(kept[k].authorization), true, Generation(kept[k]) + 1)
      else Health("", "", false, 0)
  }

  lemma {:induction false} BarelyResumes(events: seq<TaskEvent>)
    requires Collapse(events) != [] && AllComplete(Collapse(events))
    ensures CanResume(events, Barely(Collapse(events)))
    ensures AllExceeded(events, Barely(Collapse(events))) ==> Represented(events)
  {
    var kept := Collapse(events);
    forall k: nat | k < |kept| ensures Renewed(kept[k], Barely(kept)(k)) { assert kept[k] in kept; }
    if AllExceeded(events, Barely(kept)) {
      forall w | AuthorizationRequired(w) in events && w.generation.Some? ensures IsRepresented(w, kept) {
        assert Exceeded(w, |kept|, Barely(kept));
        var k: nat :| k < |kept| && Exceeds(Barely(kept)(k), w);
        assert kept[k] in kept && Complete(kept[k]);
        assert Represents(kept[k], w);
      }
    }
  }

  lemma {:induction false} ResumeIsComplete(events: seq<TaskEvent>, checks: nat -> Health)
    requires CanResume(events, checks)
    ensures Collapse(events) != [] && AllComplete(Collapse(events))
  {
    var kept := Collapse(events);
    forall r | r in kept ensures Complete(r) {
      var k: nat :| k < |kept| && kept[k] == r;
      assert Renewed(Collapse(events)[k], checks(k));
    }
  }

  /** For every recorded log: whatever the health checks return, a resume means that every recorded
      generation was exceeded for its own target, exactly if no resume is possible at all or every recorded
      wait with a generation is represented among the kept ones. */
  lemma {:induction false} SafeIff(events: seq<TaskEvent>)
    ensures (forall checks :: CanResume(events, checks) ==> AllExceeded(events, checks)) <==>
      Collapse(events) == [] || !AllComplete(Collapse(events)) || Represented(events)
  {
    var kept := Collapse(events);
    if kept != [] && AllComplete(kept) { BarelyResumes(events); }
    forall checks | CanResume(events, checks) && Represented(events) ensures AllExceeded(events, checks) {
      RepresentedIsExceeded(events, checks);
    }
    forall checks | CanResume(events, checks) ensures AllComplete(kept) { ResumeIsComplete(events, checks); }
  }

  // ---- the key ----

  predicate Plain(w: Wait) {
    NulFree(Or(w.connection)) && NulFree(Or(w.authorization)) && NulFree(Or(w.callId))
  }

  lemma {:induction false} KeyParts(w: Wait)
    ensures Key(w) == Or(w.connection) + (NUL + (Or(w.authorization) + (NUL + Or(w.callId))))
  {
    var c, a, i := Or(w.connection), Or(w.authorization), Or(w.callId);
    assert c + NUL + a + NUL + i == c + (NUL + (a + (NUL + i)));
  }

  lemma {:induction false} KeyInjective(v: Wait, w: Wait)
    requires Plain(v) && Plain(w) && Key(v) == Key(w)
    ensures Or(v.connection) == Or(w.connection) && Or(v.authorization) == Or(w.authorization)
      && Or(v.callId) == Or(w.callId)
  {
    KeyParts(v);
    KeyParts(w);
    JoinInjective(Or(v.connection), Or(w.connection),
      Or(v.authorization) + (NUL + Or(v.callId)), Or(w.authorization) + (NUL + Or(w.callId)));
    JoinInjective(Or(v.authorization), Or(w.authorization), Or(v.callId), Or(w.callId));
  }

  /** Two waits for different targets under one key. */
  predicate Collide(v: Wait, w: Wait) {
    Key(v) == Key(w) && !(Or(v.connection) == Or(w.connection) && Or(v.authorization) == Or(w.authorization))
  }

  /** A resume can go ahead only after every recorded wait with a generation was exceeded for its own
      connection and authorization, whenever no two recorded targets collide. */
  lemma {:induction false} ResumeIsSafe(events: seq<TaskEvent>, checks: nat -> Health)
    requires CanResume(events, checks)
    requires forall v, w :: AuthorizationRequired(v) in events && AuthorizationRequired(w) in events ==> !Collide(v, w)
    ensures AllExceeded(events, checks)
  {
    var kept := Collapse(events);
    CollapseCovers(events);
    forall w | AuthorizationRequired(w) in events && w.generation.Some? ensures IsRepresented(w, kept) {
      assert CoversOne(kept, AuthorizationRequired(w));
      FoundIsThere(kept, Key(w));
      var r := Find(kept, Key(w)).value;
      var k: nat :| k < |kept| && kept[k] == r;
      assert Renewed(kept[k], checks(k));
      assert !Collide(r, w);
      assert Represents(r, w);
    }
    RepresentedIsExceeded(events, checks);
  }

  /** Identifiers without NUL characters never collide. */
  lemma {:induction false} PlainIsSafe(events: seq<TaskEvent>, checks: nat -> Health)
    requires CanResume(events, checks)
    requires forall w :: AuthorizationRequired(w) in events ==> Plain(w)
    ensures AllExceeded(events, checks)
  {
    forall v, w | AuthorizationRequired(v) in events && AuthorizationRequired(w) in events ensures !Collide(v, w) {
      if Key(v) == Key(w) { KeyInjective(v, w); }
    }
    ResumeIsSafe(events, checks);
  }

  lemma {:induction false} CollapsePair(v: Wait, w: Wait)
    requires Key(v) == Key(w)
    ensures Collapse([AuthorizationRequired(v), AuthorizationRequired(w)])
      == [if Generation(w) > Generation(v) then w else v]
  {
    var d, e := AuthorizationRequired(v), AuthorizationRequired(w);
    assert [d, e][..1] == [d] && [d][..0] == [];
    assert Collapse([d]) == Keep(Collapse([]), d) == [v];
  }

  /** Whenever two complete targets collide the check is incomplete: only the first of the higher
      generation is kept, and a task can resume without any check of the other. */
  lemma {:induction false} CollisionIsUnsafe(v: Wait, w: Wait) returns (checks: nat -> Health)
    requires Collide(v, w) && Complete(v) && Complete(w)
    ensures CanResume([AuthorizationRequired(v), AuthorizationRequired(w)], checks)
    ensures !AllExceeded([AuthorizationRequired(v), AuthorizationRequired(w)], checks)
  {
    var events := [AuthorizationRequired(v), AuthorizationRequired(w)];
    CollapsePair(v, w);
    var r := if Generation(w) > Generation(v) then w else v;
    var other := if Generation(w) > Generation(v) then v else w;
    checks := Barely([r]);
    BarelyResumes(events);
    assert events[0] == AuthorizationRequired(v) && events[1] == AuthorizationRequired(w);
    assert !IsRepresented(other, [r]);
  }

  /** Two such targets. */
  lemma {:induction false} TargetsCanCollide()
    ensures Collide(Wait(Some("a\0b"), Some("c"), None, Some(1)), Wait(Some("a"), Some("b\0c"), None, Some(2)))
  {
    var k := "a\0b" + NUL + "c" + NUL + "";
    var l := "a" + NUL + "b\0c" + NUL + "";
    assert k == l;
    assert |"a\0b"| != |"a"|;
  }
}
