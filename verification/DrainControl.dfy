/**
 Drain, resume and shutdown of the executor (`startDrain`, `startShutdownDrain`,
 `resumeFromDrain`, `dispose`) together with the guard in front of every durable
 claim. The state machine below is what the class further down is proved against.
 */
module DrainControl {
  import opened Options
  import opened FifoSemaphore
  import opened TaskLimiter

  type Token = int

  datatype Reply =
    | Drained(generation: nat, token: Token)
    | Resumed
    | Stopped            // EXECUTOR_STOPPED
    | Mismatch           // DRAIN_GENERATION_MISMATCH
    | ClaimIssued
    | DispatchPaused     // TaskDispatchPausedError

  /** `claims` counts the durable claims issued so far; `paused` is the limiter's own flag. */
  datatype Control = Control(
    generation: nat, token: Option<Token>, shutdown: bool, disposed: bool, paused: bool, claims: nat)

  datatype Request =
    | StartDrain(drawn: Token)          // the token `randomUUID` would return
    | StartShutdownDrain(drawn: Token)
    | ResumeFromDrain(generation: int, token: Token)
    | Dispose(drawn: Token)
    | Claim                             // `assertDispatchAllowed` followed at once by `claimTask`

  const START := Control(0, None, false, false, false, 0)

  function Draining(c: Control, t: Token): Control {
    if c.token.None? then c.(generation := c.generation + 1, token := Some(t), paused := true) else c
  }

  function CurrentToken(c: Control): Reply
    requires c.token.Some?
  {
    Drained(c.generation, c.token.value)
  }

  function Serve(c: Control, r: Request): (Control, Reply) {
    match r
    case StartDrain(t) =>
      if c.shutdown || c.disposed then (c, Stopped)
      else var c' := Draining(c, t); (c', CurrentToken(c'))
    case StartShutdownDrain(t) =>
      if c.disposed then (c, Stopped)
      else var c' := Draining(c.(shutdown := true), t); (c', CurrentToken(c'))
    case ResumeFromDrain(generation, token) =>
      if c.shutdown || c.disposed then (c, Stopped)
      else if c.token.None? || generation != c.generation || token != c.token.value then (c, Mismatch)
      else (c.(token := None, paused := false), Resumed)
    case Dispose(t) =>
      if c.disposed then (c, Stopped)
      else var c' := Draining(c.(shutdown := true), t); (c'.(disposed := true), CurrentToken(c'))
    case Claim =>
      if c.paused then (c, DispatchPaused) else (c.(claims := c.claims + 1), ClaimIssued)
  }

  function ServeAll(c: Control, rs: seq<Request>): Control {
    if rs == [] then c else Serve(ServeAll(c, rs[..|rs| - 1]), rs[|rs| - 1]).0
  }

  /** The limiter is paused exactly while a token is out, and a stopping executor keeps its token. */
  ghost predicate Inv(c: Control) {
    && (c.paused <==> c.token.Some?)
    && (c.shutdown ==> c.token.Some?)
    && (c.disposed ==> c.shutdown)
  }

  /** Whatever is asked, in whatever order: pausing follows the token, generations and claims never
      decrease, shutdown is never left and claims nothing more, one drain stays paused under one token
      and issues no claim, and a resumed generation is never paused again. */
  lemma {:induction false} EveryRun(c: Control, rs: seq<Request>)
    requires Inv(c)
    ensures var c' := ServeAll(c, rs);
      && Inv(c')
      && c.generation <= c'.generation && c.claims <= c'.claims
      && (c.shutdown ==> c'.shutdown && c'.token == c.token && c'.generation == c.generation && c'.claims == c.claims)
      && (c.paused && c'.paused && c'.generation == c.generation ==> c'.token == c.token && c'.claims == c.claims)
      && (!c.paused && c'.generation == c.generation ==> !c'.paused)
  {
    if rs != [] { EveryRun(c, rs[..|rs| - 1]); }
  }

  /** A token works at most once: after a successful resume the same generation and token are refused
      for ever, whatever tokens later drains happen to draw. */
  lemma {:induction false} TokenWorksOnce(c: Control, generation: nat, token: Token, rs: seq<Request>)
    requires Inv(c) && Serve(c, ResumeFromDrain(generation, token)).1 == Resumed
    ensures var later := ServeAll(Serve(c, ResumeFromDrain(generation, token)).0, rs);
      Serve(later, ResumeFromDrain(generation, token)).1 != Resumed
  {
    var c1 := Serve(c, ResumeFromDrain(generation, token)).0;
    EveryRun(c1, rs);
  }

  /** A token of an earlier drain never ends a later one, even if the two drains drew the same token. */
  lemma {:induction false} OldTokenRefused(c: Control, rs: seq<Request>, generation: nat, token: Token)
    requires Inv(c) && generation <= c.generation && !c.paused
    ensures Serve(ServeAll(c, rs), ResumeFromDrain(generation, token)).1 != Resumed
  {
    EveryRun(c, rs);
  }

  // ---------------------------------------------------------------------
  // What callers can rely on, in terms of the requests and replies so far
  // ---------------------------------------------------------------------

  /** The reply to the i-th request of a fresh executor. */
  function ReplyAt(rs: seq<Request>, i: nat): Reply
    requires i < |rs|
  {
    Serve(ServeAll(START, rs[..i]), rs[i]).1
  }

  function RequestAt(rs: seq<Request>, i: nat): Request
    requires i < |rs|
  {
    rs[i]
  }

  /** A shutdown or a dispose was requested. */
  ghost predicate Stopping(rs: seq<Request>) {
    exists i: nat :: i < |rs| && (RequestAt(rs, i).StartShutdownDrain? || RequestAt(rs, i).Dispose?)
  }

  ghost predicate NoResumeSince(rs: seq<Request>, lo: nat) {
    forall j: nat :: lo <= j < |rs| ==> ReplyAt(rs, j) != Resumed
  }

  /** Some request was answered with this pair, and no resume has succeeded since. */
  ghost predicate OpenPair(rs: seq<Request>, g: nat, t: Token) {
    exists i: nat :: i < |rs| && ReplyAt(rs, i) == Drained(g, t) && NoResumeSince(rs, i + 1)
  }

  lemma {:induction false} SameReply(rs: seq<Request>, i: nat)
    requires i + 1 < |rs|
    ensures ReplyAt(rs[..|rs| - 1], i) == ReplyAt(rs, i)
  {
    assert rs[..|rs| - 1][..i] == rs[..i];
  }

  lemma {:induction false} StoppingIs(rs: seq<Request>)
    ensures Stopping(rs) <==> ServeAll(START, rs).shutdown
    ensures Inv(ServeAll(START, rs))
  {
    EveryRun(START, rs);
    if rs != [] {
      var n := |rs| - 1;
      var past := rs[..n];
      StoppingIs(past);
      EveryRun(START, past);
      assert RequestAt(rs, n) == rs[n];
      assert forall i: nat :: i < n ==> RequestAt(past, i) == RequestAt(rs, i);
      assert Stopping(rs) <==> Stopping(past) || rs[n].StartShutdownDrain? || rs[n].Dispose?;
    }
  }

  /** The pair of the last request opens the drain; otherwise it is open if it was and no resume came. */
  lemma {:induction false} OpenPairNext(rs: seq<Request>, g: nat, t: Token)
    requires rs != []
    ensures OpenPair(rs, g, t) <==>
      ReplyAt(rs, |rs| - 1) == Drained(g, t) || (OpenPair(rs[..|rs| - 1], g, t) && ReplyAt(rs, |rs| - 1) != Resumed)
  {
    var n := |rs| - 1;
    var past := rs[..n];
    forall i: nat | i < n ensures ReplyAt(past, i) == ReplyAt(rs, i) { SameReply(rs, i); }
    if ReplyAt(rs, n) == Drained(g, t) { assert NoResumeSince(rs, n + 1); }
    if OpenPair(past, g, t) && ReplyAt(rs, n) != Resumed {
      var i: nat :| i < n && ReplyAt(past, i) == Drained(g, t) && NoResumeSince(past, i + 1);
      assert NoResumeSince(rs, i + 1) by {
        forall j: nat | i + 1 <= j < |rs| ensures ReplyAt(rs, j) != Resumed {
          if j < n { assert ReplyAt(past, j) != Resumed; }
        }
      }
    }
    if OpenPair(rs, g, t) && ReplyAt(rs, n) != Drained(g, t) {
      var i: nat :| i < |rs| && ReplyAt(rs, i) == Drained(g, t) && NoResumeSince(rs, i + 1);
      assert NoResumeSince(past, i + 1) by {
        forall j: nat | i + 1 <= j < n ensures ReplyAt(past, j) != Resumed { assert ReplyAt(rs, j) != Resumed; }
      }
      assert ReplyAt(rs, n) != Resumed;
    }
  }

  lemma {:induction false} OpenPairIs(rs: seq<Request>, g: nat, t: Token)
    requires !Stopping(rs)
    ensures OpenPair(rs, g, t) <==> ServeAll(START, rs).token == Some(t) && ServeAll(START, rs).generation == g
  {
    if rs != [] {
      var past := rs[..|rs| - 1];
      StoppingIs(rs);
      StoppingIs(past);
      EveryRun(ServeAll(START, past), [rs[|rs| - 1]]);
      OpenPairIs(past, g, t);
      OpenPairNext(rs, g, t);
    }
  }

  /** A resume succeeds iff the executor is not stopping and the pair is the one announced for the drain
      that is open now. */
  lemma {:induction false} ResumeIff(rs: seq<Request>, g: int, t: Token)
    ensures Serve(ServeAll(START, rs), ResumeFromDrain(g, t)).1 == Resumed <==>
      !Stopping(rs) && g >= 0 && OpenPair(rs, g, t)
  {
    StoppingIs(rs);
    if !Stopping(rs) && g >= 0 { OpenPairIs(rs, g, t); }
  }

  /** A drain requested of an executor that is not stopping is always answered with the pair of the drain
      that is open from then on, and pauses the limiter; a stopping executor refuses. */
  lemma {:induction false} DrainAnswers(rs: seq<Request>, drawn: Token) returns (g: nat, t: Token)
    ensures var (c, reply) := Serve(ServeAll(START, rs), StartDrain(drawn));
      if Stopping(rs) then reply == Stopped && c == ServeAll(START, rs)
      else reply == Drained(g, t) && c.paused && OpenPair(rs + [StartDrain(drawn)], g, t)
  {
    var c := ServeAll(START, rs);
    var all := rs + [StartDrain(drawn)];
    StoppingIs(rs);
    assert all[..|rs|] == rs;
    g := Serve(c, StartDrain(drawn)).0.generation;
    t := if Serve(c, StartDrain(drawn)).0.token.Some? then Serve(c, StartDrain(drawn)).0.token.value else drawn;
    OpenPairNext(all, g, t);
  }

  ghost predicate Disposed(rs: seq<Request>) {
    exists i: nat :: i < |rs| && RequestAt(rs, i).Dispose?
  }

  lemma {:induction false} DisposedIs(rs: seq<Request>)
    ensures Disposed(rs) <==> ServeAll(START, rs).disposed
  {
    if rs != [] {
      var n := |rs| - 1;
      var past := rs[..n];
      DisposedIs(past);
      assert RequestAt(rs, n) == rs[n];
      assert forall i: nat :: i < n ==> RequestAt(past, i) == RequestAt(rs, i);
      assert Disposed(rs) <==> Disposed(past) || rs[n].Dispose?;
    }
  }

  /** A shutdown drain is refused iff the executor was disposed; otherwise it is answered with the token of a
      drain that nothing ends any more. */
  lemma {:induction false} ShutdownIff(rs: seq<Request>, drawn: Token)
    ensures var (c, reply) := Serve(ServeAll(START, rs), StartShutdownDrain(drawn));
      && (reply == Stopped <==> Disposed(rs))
      && (!Disposed(rs) ==> reply.Drained? && c.paused && c.token == Some(reply.token))
  {
    DisposedIs(rs);
    StoppingIs(rs);
  }

  /** A durable claim is issued iff no drain is open and the executor is not stopping. */
  lemma {:induction false} ClaimIff(rs: seq<Request>)
    ensures Serve(ServeAll(START, rs), Claim).1 == ClaimIssued <==>
      !Stopping(rs) && forall g: nat, t: Token :: !OpenPair(rs, g, t)
  {
    var c := ServeAll(START, rs);
    StoppingIs(rs);
    if !Stopping(rs) {
      if c.token.Some? { OpenPairIs(rs, c.generation, c.token.value); }
      forall g: nat, t: Token | c.token.None? ensures !OpenPair(rs, g, t) { OpenPairIs(rs, g, t); }
    }
  }

  class ExecutorDrain {
    const limiter: TaskConcurrencyLimiter
    var drainGeneration: nat
    var drainToken: Option<Token>
    var shutdownRequested: bool
    var disposed: bool
    var claims: nat

    ghost function View(): Control
      reads this, limiter
    {
      Control(drainGeneration, drainToken, shutdownRequested, disposed, limiter.draining, claims)
    }

    ghost predicate Valid()
      reads this, limiter
    {
      limiter.Valid() && Inv(View())
    }

    constructor (maximum: nat)
      requires 2 <= maximum <= 32
      ensures Valid() && fresh(limiter) && View() == START
    {
      limiter := new TaskConcurrencyLimiter(maximum);
      drainGeneration, drainToken, shutdownRequested, disposed, claims := 0, None, false, false, 0;
    }

    /** `enterDrain`; the waiters it sends back are reported in `notices`. */
    method EnterDrain(drawn: Token) returns (notices: seq<Notice>)
      requires limiter.Valid() && (limiter.draining <==> drainToken.Some?)
      modifies this`drainGeneration, this`drainToken, limiter
      ensures limiter.Valid()
      ensures View() == Draining(old(View()), drawn)
      ensures limiter.View(Foreground).queue == [] && limiter.View(Background).queue == []
    {
      notices := [];
      if drainToken.None? {
        drainGeneration := drainGeneration + 1;
        drainToken := Some(drawn);
        notices := limiter.BeginDrain();
      }
    }

    method StartDrain(drawn: Token) returns (reply: Reply, notices: seq<Notice>)
      requires Valid()
      modifies this, limiter
      ensures Valid() && (View(), reply) == Serve(old(View()), Request.StartDrain(drawn))
    {
      notices := [];
      if shutdownRequested || disposed { reply := Stopped; return; }
      notices := EnterDrain(drawn);
      reply := Drained(drainGeneration, drainToken.value);
    }

    method StartShutdownDrain(drawn: Token) returns (reply: Reply, notices: seq<Notice>)
      requires Valid()
      modifies this, limiter
      ensures Valid() && (View(), reply) == Serve(old(View()), Request.StartShutdownDrain(drawn))
    {
      notices := [];
      if disposed { reply := Stopped; return; }
      shutdownRequested := true;
      notices := EnterDrain(drawn);
      reply := Drained(drainGeneration, drainToken.value);
    }

    method ResumeFromDrain(generation: int, token: Token, aborted: Lane -> set<Ticket>) returns (reply: Reply)
      requires Valid()
      modifies this, limiter
      ensures Valid() && (View(), reply) == Serve(old(View()), Request.ResumeFromDrain(generation, token))
    {
      if shutdownRequested || disposed { reply := Stopped; return; }
      if drainToken.None? || generation != drainGeneration || token != drainToken.value { reply := Mismatch; return; }
      drainToken := None;
      var woken := limiter.Resume(aborted);
      reply := Resumed;
    }

    method Dispose(drawn: Token) returns (reply: Reply, notices: seq<Notice>)
      requires Valid()
      modifies this, limiter
      ensures Valid() && (View(), reply) == Serve(old(View()), Request.Dispose(drawn))
    {
      notices := [];
      if disposed { reply := Stopped; return; }
      shutdownRequested := true;
      notices := EnterDrain(drawn);
      reply := Drained(drainGeneration, drainToken.value);
      disposed := true;
    }

    /** A holder of a slot rechecks the pause immediately before its durable claim. */
    method Claim() returns (reply: Reply)
      requires Valid()
      modifies this`claims
      ensures Valid() && (View(), reply) == Serve(old(View()), Request.Claim)
    {
      if limiter.draining { reply := DispatchPaused; return; }
      claims := claims + 1;
      reply := ClaimIssued;
    }
  }
}
