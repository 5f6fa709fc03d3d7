/**
 Delivery of one durable notification: leases in Work, attempts in executors
 that may crash at any point, and a provider that may accept a message and lose
 its reply. The three delivery functions differ only in how they classify.
 */
module NotificationDelivery {
  import opened Options

  // ---------------------------------------------------------------------
  // Classification of what came back from Exchange
  // ---------------------------------------------------------------------

  datatype Outcome = Accepted | Rejected | RateLimited | Uncertain

  datatype Body = Incomplete | NotJson | Row(ours: bool, outcome: Option<Outcome>, vendorId: bool)

  /** `retryAfter` is the header where it is within bounds. */
  datatype Wire = NoResponse | Response(status: nat, retryAfter: Option<nat>, body: Body)

  datatype Error =
    | Exchange(httpStatus: Option<nat>, unknown: bool, after: Option<nat>)
    | WorkHttp(code: nat)
    | OtherError

  datatype Sent = Returned(result: Outcome, wait: Option<nat>, hasVendorId: bool) | Threw(error: Error)

  datatype Flow = Thread | Personal | Credential

  datatype Record = Delivered | Failed | Unsure | Retry

  predicate Ok(status: nat) {
    200 <= status < 300
  }

  /** `post` with a grant, accepting a 429, then `sendTeamsMessage` on the response. */
  function SendTeams(wire: Wire): Sent {
    match wire
    case NoResponse => Threw(Exchange(None, true, None))
    case Response(status, retryAfter, body) =>
      if !Ok(status) && status != 429 then Threw(Exchange(Some(status), status == 408 || status >= 500, None))
      else match body
        case Incomplete => Threw(Exchange(Some(status), true, None))
        case NotJson => Threw(OtherError)
        case Row(ours, outcome, vendorId) =>
          if !ours || outcome.None? then Threw(OtherError)
          else if status == 429 then
            if outcome.value != RateLimited || retryAfter.None? then Threw(Exchange(Some(429), false, None))
            else Returned(RateLimited, retryAfter, false)
          else if outcome.value == RateLimited then Threw(OtherError)
          else Returned(outcome.value, None, outcome.value == Accepted && vendorId)
  }

  /** `sendPrivateTeamsMessage`: an acceptance without a vendor id is uncertain, and so is every
      response that cannot be validated. */
  function SendPrivate(wire: Wire): Sent {
    match SendTeams(wire)
    case Returned(Accepted, _, false) => Returned(Uncertain, None, false)
    case Threw(OtherError) => Threw(Exchange(None, true, None))
    case s => s
  }

  function Send(flow: Flow, wire: Wire): Sent {
    if flow == Personal then SendPrivate(wire) else SendTeams(wire)
  }

  predicate IsUncertain(e: Error) {
    match e
    case Exchange(_, unknown, _) => unknown
    case WorkHttp(code) => code >= 500
    case OtherError => true
  }

  predicate Is429(e: Error) {
    e.Exchange? && e.httpStatus == Some(429) && e.after.Some?
  }

  /** The `catch` blocks; `callStarted` is `providerCallStarted`. */
  function OnError(flow: Flow, callStarted: bool, e: Error): Record {
    if flow == Thread && callStarted && Is429(e) then Retry
    else if flow == Personal && callStarted && Is429(e) && !e.unknown then Retry
    else if flow == Credential && Is429(e) then Retry
    else if flow == Credential && !callStarted && e.Exchange?
      && (e.httpStatus == None || e.httpStatus.value >= 500) then Retry
    else if callStarted && IsUncertain(e) then Unsure
    else Failed
  }

  /** What is recorded for what the send returned. */
  function OnResult(flow: Flow, s: Sent): Record
    requires s.Returned?
  {
    if s.result == RateLimited && s.wait.Some? then Retry
    else if s.result == Accepted && (flow == Personal ==> s.hasVendorId) then Delivered
    else if s.result == Uncertain || s.result == Accepted then Unsure
    else Failed
  }

  function Classify(flow: Flow, wire: Wire): Record {
    var s := Send(flow, wire);
    if s.Returned? then OnResult(flow, s) else OnError(flow, true, s.error)
  }

  /** A 429 response to this very request that says it was rate limited, and for how long. */
  predicate Confirmed429(wire: Wire) {
    wire.Response? && wire.status == 429 && wire.retryAfter.Some? && wire.body.Row? && wire.body.ours
      && wire.body.outcome == Some(RateLimited)
  }

  predicate SaysAccepted(wire: Wire) {
    wire.Response? && wire.body.Row? && wire.body.ours && wire.body.outcome == Some(Accepted)
  }

  /** After a send, another attempt is asked for exactly on a confirmed 429. */
  lemma {:induction false} RetryIff(flow: Flow, wire: Wire)
    ensures Classify(flow, wire) == Retry <==> Confirmed429(wire)
  {
  }

  /** And delivery is recorded exactly on a successful response that says accepted, for personal messages
      with a vendor id. */
  lemma {:induction false} DeliveredIff(flow: Flow, wire: Wire)
    ensures Classify(flow, wire) == Delivered <==>
      SaysAccepted(wire) && Ok(wire.status) && (flow == Personal ==> wire.body.vendorId)
  {
  }

  /** An error before the provider call: another attempt is asked for iff this is a credential notice and the
      grant was rate limited for a bounded time, got no response, or met a server error; otherwise it failed. */
  lemma {:induction false} BeforeCallIff(flow: Flow, e: Error)
    ensures OnError(flow, false, e) == Retry <==>
      && flow == Credential && e.Exchange?
      && (|| (e.httpStatus == Some(429) && e.after.Some?)
          || e.httpStatus == None
          || (e.httpStatus.Some? && e.httpStatus.value >= 500))
    ensures OnError(flow, false, e) != Retry ==> OnError(flow, false, e) == Failed
  {
  }

  /** An error after the provider call was entered: another attempt only for a rate limit with a bounded time
      (for personal messages of a known outcome), uncertain if the outcome is unknown, Work met a server error
      or the error is of no known kind, and otherwise failed. */
  lemma {:induction false} DuringCallIff(flow: Flow, e: Error)
    ensures OnError(flow, true, e) == Retry <==>
      e.Exchange? && e.httpStatus == Some(429) && e.after.Some? && (flow == Personal ==> !e.unknown)
    ensures OnError(flow, true, e) == Unsure <==>
      && OnError(flow, true, e) != Retry
      && ((e.Exchange? && e.unknown) || (e.WorkHttp? && e.code >= 500) || e.OtherError?)
    ensures OnError(flow, true, e) != Delivered
  {
  }

  // ---------------------------------------------------------------------
  // Work, attempts and the provider
  // ---------------------------------------------------------------------

  /** The row in Work; a lease is its token. `under` is the token a row was closed under. */
  datatype Status = Queued | Leased(token: nat) | Started(token: nat) | Closed(record: Record, under: nat)

  datatype Request = NotSent | InFlight | Taken | Refused

  datatype Phase =
    | Claimed                                 // holds a lease, has not started
    | Preparing                               // `startNotification` succeeded, nothing sent yet
    | Waiting                                 // the request is out
    | Recording(record: Record, inTry: bool)  // `finishNotification`; inside the `try` block or in the `catch`
    | Ended

  /** Which `finishNotification` of an attempt took effect. */
  datatype Applied = NotYet | ByFirst | BySecond

  /** `answer` and `firstError` keep what came back from Exchange and from a first `finishNotification`
      that did not succeed inside the `try` block. */
  datatype Attempt = Attempt(phase: Phase, request: Request, answer: Option<Wire>, applied: Applied,
                             firstError: Option<Error>)

  /** `lapsed`: the current lease has expired. */
  datatype World = World(status: Status, lapsed: bool, nextToken: nat, attempts: map<nat, Attempt>)

  /** `refused`: Work turns this request away for a reason other than the state of the row. */
  datatype Step =
    | Claim
    | Lapse                                            // time passes beyond the lease
    | Expire                                           // Work finds the lapsed lease
    | Start(t: nat, refused: bool, heard: bool)
    | PrepareFails(t: nat, error: Error)               // before `providerCallStarted`
    | NotDispatched(t: nat, error: Error)              // after it, but before the request leaves
    | Dispatch(t: nat)
    | Decide(t: nat, accept: bool)                     // the provider, at any later time
    | Answer(t: nat, wire: Wire)                       // or time-out
    | Finish(t: nat, refused: bool, heard: bool, error: Error)
    | Crash(t: nat)

  function Initial(): World {
    World(Queued, false, 0, map[])
  }

  function With(w: World, t: nat, a: Attempt): World {
    w.(attempts := w.attempts[t := a])
  }

  function PhaseOf(w: World, t: nat): Phase {
    if t in w.attempts then w.attempts[t].phase else Ended
  }

  /** What the provider may answer: an acceptance only for a message it took, a rate limit only for one it
      did not and will not take. Anything else says nothing. */
  predicate Honest(r: Request, wire: Wire) {
    && (SaysAccepted(wire) ==> r == Taken)
    && (Confirmed429(wire) ==> r == Refused)
  }

  predicate Takes(w: World, t: nat, refused: bool) {
    w.status == Started(t) && !w.lapsed && !refused
  }

  /** `finish_notification`: only the current started lease records, and `retry` queues the row again. */
  function Recorded(w: World, t: nat, record: Record, refused: bool): Status {
    if !Takes(w, t, refused) then w.status else if record == Retry then Queued else Closed(record, t)
  }

  /** The attempt after one `finishNotification`; a failure inside the `try` block leads to a second one. */
  function Finished(w: World, t: nat, refused: bool, heard: bool, error: Error, flow: Flow): Attempt
    requires t in w.attempts && w.attempts[t].phase.Recording?
  {
    var a := w.attempts[t];
    var takes := Takes(w, t, refused);
    var a' := a.(applied := if !takes then a.applied else if a.firstError.Some? then BySecond else ByFirst);
    if !(heard && takes) && a.phase.inTry && !error.Exchange? then
      a'.(phase := Recording(OnError(flow, true, error), false), firstError := Some(error))
    else a'.(phase := Ended)
  }

  function Unsent(phase: Phase): Attempt {
    Attempt(phase, NotSent, None, NotYet, None)
  }

  function Next(w: World, s: Step, flow: Flow): World {
    match s
    case Claim =>
      if w.status != Queued then w
      else With(w.(status := Leased(w.nextToken), lapsed := false, nextToken := w.nextToken + 1), w.nextToken,
        Unsent(Claimed))
    case Lapse => w.(lapsed := true)
    case Expire =>
      if !w.lapsed then w
      else (match w.status
        case Leased(_) => w.(status := Queued)
        case Started(t) => w.(status := Closed(Unsure, t))
        case _ => w)
    case Start(t, refused, heard) =>
      if PhaseOf(w, t) != Claimed then w
      else
        var starts := w.status == Leased(t) && !w.lapsed && !refused;
        With(w.(status := if starts then Started(t) else w.status), t,
          Unsent(if starts && heard then Preparing else Ended))
    case PrepareFails(t, error) =>
      if PhaseOf(w, t) != Preparing then w else With(w, t, Unsent(Recording(OnError(flow, false, error), false)))
    case NotDispatched(t, error) =>
      if PhaseOf(w, t) != Preparing then w else With(w, t, Unsent(Recording(OnError(flow, true, error), false)))
    case Dispatch(t) =>
      if PhaseOf(w, t) != Preparing then w else With(w, t, Unsent(Waiting).(request := InFlight))
    case Decide(t, accept) =>
      if t in w.attempts && w.attempts[t].request == InFlight then
        With(w, t, w.attempts[t].(request := if accept then Taken else Refused))
      else w
    case Answer(t, wire) =>
      if PhaseOf(w, t) != Waiting || !Honest(w.attempts[t].request, wire) then w
      else With(w, t, Answered(w.attempts[t], wire, flow))
    case Finish(t, refused, heard, error) =>
      if !PhaseOf(w, t).Recording? then w
      else With(w.(status := Recorded(w, t, PhaseOf(w, t).record, refused)), t,
        Finished(w, t, refused, heard, error, flow))
    case Crash(t) =>
      if t in w.attempts then With(w, t, w.attempts[t].(phase := Ended)) else w
  }

  function Answered(a: Attempt, wire: Wire, flow: Flow): Attempt {
    a.(phase := Recording(Classify(flow, wire), Send(flow, wire).Returned?), answer := Some(wire))
  }

  function Run(ss: seq<Step>, flow: Flow): World {
    if ss == [] then Initial() else Next(Run(ss[..|ss| - 1], flow), ss[|ss| - 1], flow)
  }

  // ---------------------------------------------------------------------
  // Invariant
  // ---------------------------------------------------------------------

  /** The provider has the message, or may still take it. */
  predicate MayBeTaken(a: Attempt) {
    a.request == InFlight || a.request == Taken
  }

  /** The attempt may still send, or its message may be taken. */
  predicate Live(a: Attempt) {
    a.phase == Preparing || MayBeTaken(a)
  }

  predicate AttemptOk(a: Attempt, t: nat, status: Status) {
    && (Live(a) ==> status == Started(t) || status.Closed?)
    && (a.phase == Claimed || a.phase == Preparing ==> a.request == NotSent)
    && (a.phase == Recording(Retry, true) || a.phase == Recording(Retry, false) ==> !MayBeTaken(a))
    && (a.phase == Recording(Delivered, true) || a.phase == Recording(Delivered, false) ==> a.request == Taken)
  }

  predicate StatusOk(w: World) {
    match w.status
    case Queued => true
    case Leased(t) => t < w.nextToken
    case Started(t) => t < w.nextToken
    case Closed(record, t) =>
      record != Retry && (record == Delivered ==> t in w.attempts && w.attempts[t].request == Taken)
  }

  ghost predicate Inv(w: World) {
    && StatusOk(w)
    && (forall t :: t in w.attempts ==> t < w.nextToken && AttemptOk(w.attempts[t], t, w.status))
    && (forall t, u :: t in w.attempts && u in w.attempts && Live(w.attempts[t]) && Live(w.attempts[u]) ==> t == u)
  }

  /** An attempt goes on without the row changing. */
  lemma {:induction false} Goes(w: World, t: nat, a: Attempt)
    requires Inv(w) && t in w.attempts && AttemptOk(a, t, w.status)
    requires Live(a) ==> Live(w.attempts[t])
    requires w.attempts[t].request == Taken ==> a.request == Taken
    ensures Inv(With(w, t, a))
  {
  }

  /** The row is started: no attempt under another lease was live. */
  lemma {:induction false} StartsKeeps(w: World, t: nat, phase: Phase)
    requires Inv(w) && w.status == Leased(t) && t in w.attempts && (phase == Preparing || phase == Ended)
    ensures Inv(With(w.(status := Started(t)), t, Unsent(phase)))
  {
    assert forall u :: u in w.attempts ==> AttemptOk(w.attempts[u], u, w.status);
    assert forall u :: u in w.attempts ==> !Live(w.attempts[u]);
  }

  lemma {:induction false} StartKeeps(w: World, t: nat, refused: bool, heard: bool, flow: Flow)
    requires Inv(w)
    ensures Inv(Next(w, Start(t, refused, heard), flow))
  {
    if PhaseOf(w, t) == Claimed {
      if w.status == Leased(t) && !w.lapsed && !refused {
        StartsKeeps(w, t, if heard then Preparing else Ended);
      } else {
        Goes(w, t, Unsent(Ended));
      }
    }
  }

  /** Recording closes the row, or queues it again when nothing can have been accepted. */
  lemma {:induction false} RecordKeeps(w: World, t: nat, record: Record, inTry: bool, refused: bool)
    requires Inv(w) && t in w.attempts && w.attempts[t].phase == Recording(record, inTry)
    ensures Inv(w.(status := Recorded(w, t, record, refused)))
  {
    var w' := w.(status := Recorded(w, t, record, refused));
    if w'.status != w.status {
      forall u | u in w.attempts ensures AttemptOk(w.attempts[u], u, w'.status) {
        assert AttemptOk(w.attempts[u], u, w.status);
      }
    }
  }

  lemma {:induction false} FinishedOk(w: World, t: nat, refused: bool, heard: bool, error: Error, flow: Flow,
                                      status: Status)
    requires t in w.attempts && w.attempts[t].phase.Recording? && AttemptOk(w.attempts[t], t, status)
    ensures AttemptOk(Finished(w, t, refused, heard, error, flow), t, status)
    ensures Finished(w, t, refused, heard, error, flow).request == w.attempts[t].request
  {
    NeverDelivered(flow, true, error);
  }

  /** Recording is fenced: a repeated or late record never reopens or changes a closed row. */
  lemma {:induction false} FinishKeeps(w: World, t: nat, refused: bool, heard: bool, error: Error, flow: Flow)
    requires Inv(w)
    ensures Inv(Next(w, Finish(t, refused, heard, error), flow))
    ensures w.status != Started(t) ==> Next(w, Finish(t, refused, heard, error), flow).status == w.status
  {
    if PhaseOf(w, t).Recording? {
      var record, inTry := PhaseOf(w, t).record, PhaseOf(w, t).inTry;
      RecordKeeps(w, t, record, inTry, refused);
      var w1 := w.(status := Recorded(w, t, record, refused));
      FinishedOk(w, t, refused, heard, error, flow, w1.status);
      Goes(w1, t, Finished(w, t, refused, heard, error, flow));
    }
  }

  lemma {:induction false} AnswerKeeps(w: World, t: nat, wire: Wire, flow: Flow)
    requires Inv(w)
    ensures Inv(Next(w, Answer(t, wire), flow))
  {
    if PhaseOf(w, t) == Waiting && Honest(w.attempts[t].request, wire) {
      RetryIff(flow, wire);
      DeliveredIff(flow, wire);
      Goes(w, t, Answered(w.attempts[t], wire, flow));
    }
  }

  lemma {:induction false} ClaimKeeps(w: World, flow: Flow)
    requires Inv(w)
    ensures Inv(Next(w, Claim, flow)) && Inv(Next(w, Lapse, flow)) && Inv(Next(w, Expire, flow))
  {
    assert forall t :: t in w.attempts ==> AttemptOk(w.attempts[t], t, w.status);
  }

  lemma {:induction false} NeverDelivered(flow: Flow, callStarted: bool, e: Error)
    ensures OnError(flow, callStarted, e) != Delivered
    ensures callStarted && !e.Exchange? ==> OnError(flow, callStarted, e) == if IsUncertain(e) then Unsure else Failed
  {
  }

  lemma {:induction false} PreparedKeeps(w: World, t: nat, error: Error, flow: Flow)
    requires Inv(w)
    ensures Inv(Next(w, PrepareFails(t, error), flow)) && Inv(Next(w, NotDispatched(t, error), flow))
    ensures Inv(Next(w, Dispatch(t), flow))
  {
    if PhaseOf(w, t) == Preparing {
      NeverDelivered(flow, false, error);
      NeverDelivered(flow, true, error);
      Goes(w, t, Unsent(Recording(OnError(flow, false, error), false)));
      Goes(w, t, Unsent(Recording(OnError(flow, true, error), false)));
      Goes(w, t, Unsent(Waiting).(request := InFlight));
    }
  }

  lemma {:induction false} DecideKeeps(w: World, t: nat, accept: bool, flow: Flow)
    requires Inv(w)
    ensures Inv(Next(w, Decide(t, accept), flow))
  {
    if t in w.attempts && w.attempts[t].request == InFlight {
      Goes(w, t, w.attempts[t].(request := if accept then Taken else Refused));
    }
  }

  /** Every step keeps the invariant, and nothing ever changes a closed row. */
  lemma {:induction false} NextKeeps(w: World, s: Step, flow: Flow)
    requires Inv(w)
    ensures Inv(Next(w, s, flow))
    ensures w.status.Closed? ==> Next(w, s, flow).status == w.status
  {
    match s
    case Claim => ClaimKeeps(w, flow);
    case Lapse => ClaimKeeps(w, flow);
    case Expire => ClaimKeeps(w, flow);
    case Start(t, refused, heard) => StartKeeps(w, t, refused, heard, flow);
    case PrepareFails(t, error) => PreparedKeeps(w, t, error, flow);
    case NotDispatched(t, error) => PreparedKeeps(w, t, error, flow);
    case Dispatch(t) => PreparedKeeps(w, t, OtherError, flow);
    case Decide(t, accept) => DecideKeeps(w, t, accept, flow);
    case Answer(t, wire) => AnswerKeeps(w, t, wire, flow);
    case Finish(t, refused, heard, error) => FinishKeeps(w, t, refused, heard, error, flow);
    case Crash(t) => if t in w.attempts { Goes(w, t, w.attempts[t].(phase := Ended)); }
  }

  lemma {:induction false} EveryRun(ss: seq<Step>, flow: Flow)
    ensures Inv(Run(ss, flow))
  {
    if ss != [] {
      EveryRun(ss[..|ss| - 1], flow);
      NextKeeps(Run(ss[..|ss| - 1], flow), ss[|ss| - 1], flow);
    }
  }

  /** Over every run of attempts, crashes and lost replies: the provider accepts the notification at most
      once; a notification is queued for another attempt only while no earlier attempt was or can still be
      accepted; and `delivered` stands only for an acceptance. */
  lemma {:induction false} AtMostOnce(ss: seq<Step>, flow: Flow)
    ensures var w := Run(ss, flow);
      && (forall t, u ::
            t in w.attempts && u in w.attempts && w.attempts[t].request == Taken == w.attempts[u].request ==> t == u)
      && (w.status.Queued? || w.status.Leased? ==> forall t :: t in w.attempts ==> !MayBeTaken(w.attempts[t]))
      && (w.status.Closed? && w.status.record == Delivered ==>
            w.status.under in w.attempts && w.attempts[w.status.under].request == Taken)
  {
    EveryRun(ss, flow);
  }

  // ---------------------------------------------------------------------
  // A recorded retry is tried again
  // ---------------------------------------------------------------------

  lemma {:induction false} RunNext(ss: seq<Step>, s: Step, flow: Flow)
    ensures Run(ss + [s], flow) == Next(Run(ss, flow), s, flow)
  {
    assert (ss + [s])[..|ss|] == ss;
  }

  /** After every run: a retry that the started lease records in time, whether or not the reply is heard,
      queues the row again, and the next claim leases it to a new attempt. */
  lemma {:induction false} RetryIsClaimedAgain(ss: seq<Step>, t: nat, heard: bool, e: Error, flow: Flow)
    requires var w := Run(ss, flow);
      w.status == Started(t) && !w.lapsed && t in w.attempts && w.attempts[t].phase.Recording?
      && w.attempts[t].phase.record == Retry
    ensures var w := Run(ss, flow);
      var w1 := Run(ss + [Finish(t, false, heard, e)], flow);
      var w2 := Run(ss + [Finish(t, false, heard, e)] + [Claim], flow);
      && w1.status == Queued
      && w2.status == Leased(w.nextToken) && !w2.lapsed
      && w.nextToken !in w.attempts && w.nextToken in w2.attempts && w2.attempts[w.nextToken] == Unsent(Claimed)
  {
    EveryRun(ss, flow);
    RunNext(ss, Finish(t, false, heard, e), flow);
    RunNext(ss + [Finish(t, false, heard, e)], Claim, flow);
  }

  /** So a credential notice whose grant could not be had is queued again, and every other notification whose
      preparation fails is closed as failed. */
  lemma {:induction false} PreparationOutcome(ss: seq<Step>, t: nat, error: Error, heard: bool, e: Error, flow: Flow)
    requires var w := Run(ss, flow);
      w.status == Started(t) && !w.lapsed && t in w.attempts && w.attempts[t].phase == Preparing
    ensures var w' := Run(ss + [PrepareFails(t, error)] + [Finish(t, false, heard, e)], flow);
      w'.status == if OnError(flow, false, error) == Retry then Queued else Closed(Failed, t)
  {
    BeforeCallIff(flow, error);
    RunNext(ss, PrepareFails(t, error), flow);
    RunNext(ss + [PrepareFails(t, error)], Finish(t, false, heard, e), flow);
  }

  /** A lease that was never started returns to the queue when it lapses; a started one is closed as
      uncertain, so it is not sent again. */
  lemma {:induction false} LapsedLease(ss: seq<Step>, flow: Flow)
    ensures var w := Run(ss, flow); var w' := Run(ss + [Lapse] + [Expire], flow);
      && (w.status.Leased? ==> w'.status == Queued)
      && (w.status.Started? ==> w'.status == Closed(Unsure, w.status.token))
  {
    RunNext(ss, Lapse, flow);
    RunNext(ss + [Lapse], Expire, flow);
  }

  // ---------------------------------------------------------------------
  // The row and the lease
  // ---------------------------------------------------------------------

  /** A lease starts iff it is the current one, has not lapsed and Work accepts the request; a result is recorded
      iff the started lease is the current one, has not lapsed and Work accepts it; claims take queued rows only;
      and nothing else moves the row but the end of a lapsed lease. */
  lemma {:induction false} StatusLaw(w: World, s: Step, flow: Flow)
    ensures Next(w, s, flow).status ==
      match s
      case Claim => if w.status == Queued then Leased(w.nextToken) else w.status
      case Start(t, refused, _) =>
        if PhaseOf(w, t) == Claimed && w.status == Leased(t) && !w.lapsed && !refused then Started(t) else w.status
      case Finish(t, refused, _, _) =>
        if !PhaseOf(w, t).Recording? || w.status != Started(t) || w.lapsed || refused then w.status
        else if PhaseOf(w, t).record == Retry then Queued else Closed(PhaseOf(w, t).record, t)
      case Expire =>
        if w.lapsed && w.status.Leased? then Queued
        else if w.lapsed && w.status.Started? then Closed(Unsure, w.status.token) else w.status
      case _ => w.status
  {
  }

  function StepAt(ss: seq<Step>, i: nat): Step
    requires i < |ss|
  {
    ss[i]
  }

  /** The attempt started its lease in time and heard so. */
  ghost predicate StartHeard(ss: seq<Step>, t: nat, flow: Flow) {
    exists i: nat :: i < |ss| && StepAt(ss, i) == Start(t, false, true)
      && Run(ss[..i], flow).status == Leased(t) && !Run(ss[..i], flow).lapsed
  }

  lemma {:induction false} StartHeardNext(past: seq<Step>, s: Step, t: nat, flow: Flow)
    ensures StartHeard(past, t, flow) ==> StartHeard(past + [s], t, flow)
    ensures s == Start(t, false, true) && Run(past, flow).status == Leased(t) && !Run(past, flow).lapsed ==>
      StartHeard(past + [s], t, flow)
  {
    var ss := past + [s];
    assert ss[..|past|] == past && StepAt(ss, |past|) == s;
    if StartHeard(past, t, flow) {
      var i: nat :| i < |past| && StepAt(past, i) == Start(t, false, true)
        && Run(past[..i], flow).status == Leased(t) && !Run(past[..i], flow).lapsed;
      assert ss[..i] == past[..i] && StepAt(ss, i) == StepAt(past, i);
    }
  }

  /** The attempt has gone further than its claim. */
  predicate Active(w: World, t: nat) {
    t in w.attempts && (w.attempts[t].request != NotSent || w.attempts[t].phase.Preparing?
      || w.attempts[t].phase.Waiting? || w.attempts[t].phase.Recording?)
  }

  lemma {:induction false} BecomesActive(w: World, s: Step, t: nat, flow: Flow)
    requires Active(Next(w, s, flow), t) && !Active(w, t)
    ensures s == Start(t, false, true) && w.status == Leased(t) && !w.lapsed
  {
  }

  /** After every run: nothing is prepared, sent or recorded by an attempt that did not start its current lease in
      time and hear so. */
  lemma {:induction false} SentAfterStart(ss: seq<Step>, t: nat, flow: Flow)
    requires Active(Run(ss, flow), t)
    ensures StartHeard(ss, t, flow)
  {
    var past, s := ss[..|ss| - 1], ss[|ss| - 1];
    assert past + [s] == ss;
    StartHeardNext(past, s, t, flow);
    if Active(Run(past, flow), t) { SentAfterStart(past, t, flow); }
    else { BecomesActive(Run(past, flow), s, t, flow); }
  }
}
