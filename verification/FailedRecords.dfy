/**
 When the record `failed` stands for a message the provider has taken. Every
 attempt keeps what came back from Exchange and how its first
 `finishNotification` ended; together they decide what can be recorded.
 */
module FailedRecords {
  import opened Options
  import opened NotificationDelivery

  /** An answer that every flow classifies as a definite failure: a client error, a 429 to this request that
      is no confirmed rate limit, or a rejection. */
  predicate SaysFailed(wire: Wire) {
    && wire.Response?
    && (|| (!Ok(wire.status) && wire.status != 429 && wire.status != 408 && wire.status < 500)
        || (wire.status == 429 && wire.body.Row? && wire.body.ours && wire.body.outcome.Some? && !Confirmed429(wire))
        || (Ok(wire.status) && wire.body.Row? && wire.body.ours && wire.body.outcome == Some(Rejected)))
  }

  lemma {:induction false} FailedIff(flow: Flow, wire: Wire)
    ensures Classify(flow, wire) == Failed <==> SaysFailed(wire)
  {
  }

  /** Work answered the first recording with a status below 500. */
  predicate SaysRefused(e: Option<Error>) {
    e.Some? && e.value.WorkHttp? && e.value.code < 500
  }

  /** What the second recording says. */
  lemma {:induction false} SecondRecord(flow: Flow, e: Error)
    requires !e.Exchange?
    ensures OnError(flow, true, e) == if SaysRefused(Some(e)) then Failed else Unsure
  {
  }

  // ---------------------------------------------------------------------
  // What an attempt remembers
  // ---------------------------------------------------------------------

  /** The record in hand is the one its history gives. */
  predicate PhaseTrue(a: Attempt, flow: Flow) {
    match a.phase
    case Recording(record, inTry) =>
      && a.applied != BySecond
      && (a.answer.None? ==> a.request == NotSent)
      && (a.firstError.Some? ==> !inTry && record == OnError(flow, true, a.firstError.value))
      && (a.firstError.None? ==> a.applied == NotYet && (a.answer.Some? ==> record == Classify(flow, a.answer.value)))
    case Ended => true
    case _ => a.answer.None? && a.firstError.None? && a.applied == NotYet
  }

  predicate ClosedUnder(status: Status, t: nat) {
    status.Closed? && status.under == t
  }

  /** What took effect is what the row says. */
  predicate AppliedTrue(a: Attempt, t: nat, status: Status, flow: Flow) {
    match a.applied
    case NotYet => ClosedUnder(status, t) ==> status.record == Unsure
    case ByFirst =>
      && status != Started(t) && status != Leased(t)
      && (a.answer.None? ==> a.request == NotSent)
      && (a.answer.Some? ==>
            if Classify(flow, a.answer.value) == Retry then !ClosedUnder(status, t)
            else status == Closed(Classify(flow, a.answer.value), t))
    case BySecond =>
      && a.firstError.Some? && status == Closed(OnError(flow, true, a.firstError.value), t)
  }

  predicate ErrorTrue(a: Attempt) {
    && (a.firstError.Some? ==> a.answer.Some? && !a.firstError.value.Exchange?)
    && (a.phase.Recording? && a.phase.inTry ==> a.answer.Some?)
  }

  predicate HistoryTrue(a: Attempt, t: nat, status: Status, flow: Flow) {
    PhaseTrue(a, flow) && AppliedTrue(a, t, status, flow) && ErrorTrue(a)
  }

  /** The token of a row in use belongs to an attempt. */
  predicate TokenKnown(w: World) {
    match w.status
    case Queued => true
    case Leased(t) => t in w.attempts
    case Started(t) => t in w.attempts
    case Closed(_, t) => t in w.attempts
  }

  ghost predicate AllTrue(w: World, flow: Flow) {
    TokenKnown(w) && forall t :: t in w.attempts ==> t < w.nextToken && HistoryTrue(w.attempts[t], t, w.status, flow)
  }

  /** One attempt changes; the row stays, or goes from or to this attempt's token. */
  lemma {:induction false} OneChanges(w: World, w': World, t: nat, flow: Flow)
    requires AllTrue(w, flow) && t in w.attempts && t in w'.attempts && w'.nextToken == w.nextToken
    requires w'.attempts == w.attempts[t := w'.attempts[t]]
    requires HistoryTrue(w'.attempts[t], t, w'.status, flow)
    requires w'.status == w.status || w'.status == Queued || w'.status == Started(t) || ClosedUnder(w'.status, t)
    requires w'.status != w.status ==> w.status == Leased(t) || w.status == Started(t)
    ensures AllTrue(w', flow)
  {
    forall u | u in w'.attempts ensures u < w'.nextToken && HistoryTrue(w'.attempts[u], u, w'.status, flow) {
      assert HistoryTrue(w.attempts[u], u, w.status, flow) || u == t;
    }
  }

  /** A recording: by the first call what the answer says, by the second what the first error says. */
  lemma {:induction false} FinishTrue(w: World, t: nat, refused: bool, heard: bool, error: Error, flow: Flow)
    requires AllTrue(w, flow)
    ensures AllTrue(Next(w, Finish(t, refused, heard, error), flow), flow)
  {
    if PhaseOf(w, t).Recording? {
      var w' := Next(w, Finish(t, refused, heard, error), flow);
      assert HistoryTrue(w.attempts[t], t, w.status, flow);
      FinishedTrue(w, t, refused, heard, error, flow);
      OneChanges(w, w', t, flow);
    }
  }

  lemma {:induction false} FinishedTrue(w: World, t: nat, refused: bool, heard: bool, error: Error, flow: Flow)
    requires t in w.attempts && w.attempts[t].phase.Recording? && HistoryTrue(w.attempts[t], t, w.status, flow)
    ensures HistoryTrue(Finished(w, t, refused, heard, error, flow), t,
      Recorded(w, t, w.attempts[t].phase.record, refused), flow)
  {
    var a := w.attempts[t];
    if a.firstError.Some? { SecondRecord(flow, a.firstError.value); }
  }

  lemma {:induction false} NewLease(w: World, flow: Flow)
    requires AllTrue(w, flow)
    ensures AllTrue(Next(w, Claim, flow), flow)
  {
    var w' := Next(w, Claim, flow);
    forall u | u in w'.attempts ensures u < w'.nextToken && HistoryTrue(w'.attempts[u], u, w'.status, flow) {
      assert u in w.attempts ==> HistoryTrue(w.attempts[u], u, w.status, flow);
    }
  }

  lemma {:induction false} ExpireTrue(w: World, flow: Flow)
    requires AllTrue(w, flow)
    ensures AllTrue(Next(w, Expire, flow), flow) && AllTrue(Next(w, Lapse, flow), flow)
  {
    var w' := Next(w, Expire, flow);
    forall u | u in w'.attempts ensures u < w'.nextToken && HistoryTrue(w'.attempts[u], u, w'.status, flow) {
      assert HistoryTrue(w.attempts[u], u, w.status, flow);
    }
  }

  lemma {:induction false} AttemptTrue(w: World, s: Step, flow: Flow)
    requires AllTrue(w, flow) && !s.Claim? && !s.Lapse? && !s.Expire? && !s.Finish?
    ensures AllTrue(Next(w, s, flow), flow)
  {
    if s.t in w.attempts {
      var w' := Next(w, s, flow);
      assert HistoryTrue(w.attempts[s.t], s.t, w.status, flow);
      OneChanges(w, w', s.t, flow);
    }
  }

  lemma {:induction false} NextTrue(w: World, s: Step, flow: Flow)
    requires AllTrue(w, flow)
    ensures AllTrue(Next(w, s, flow), flow)
  {
    match s
    case Claim => NewLease(w, flow);
    case Lapse => ExpireTrue(w, flow);
    case Expire => ExpireTrue(w, flow);
    case Finish(t, refused, heard, error) => FinishTrue(w, t, refused, heard, error, flow);
    case _ => AttemptTrue(w, s, flow);
  }

  lemma {:induction false} RunTrue(ss: seq<Step>, flow: Flow)
    ensures AllTrue(Run(ss, flow), flow)
  {
    if ss != [] {
      RunTrue(ss[..|ss| - 1], flow);
      NextTrue(Run(ss[..|ss| - 1], flow), ss[|ss| - 1], flow);
    }
  }

  // ---------------------------------------------------------------------
  // The exact condition
  // ---------------------------------------------------------------------

  /** The first recording took effect after an answer that says failed, or the second one did after Work had
      turned the first away with a status below 500. */
  predicate RecordsFailure(a: Attempt) {
    || (a.applied == ByFirst && a.answer.Some? && SaysFailed(a.answer.value))
    || (a.applied == BySecond && SaysRefused(a.firstError))
  }

  /** Over every run: the row says `failed` for a message the provider has taken exactly if the message of
      that attempt was taken and its history is one of these two. */
  lemma {:induction false} FailedThoughTakenIff(ss: seq<Step>, t: nat, flow: Flow)
    requires t in Run(ss, flow).attempts
    ensures var w := Run(ss, flow); var a := w.attempts[t];
      w.status == Closed(Failed, t) && a.request == Taken <==> a.request == Taken && RecordsFailure(a)
  {
    RunTrue(ss, flow);
    var w := Run(ss, flow);
    var a := w.attempts[t];
    assert HistoryTrue(a, t, w.status, flow);
    if a.answer.Some? { FailedIff(flow, a.answer.value); }
    if a.firstError.Some? { SecondRecord(flow, a.firstError.value); }
  }

  /** And for every record: what a closed row says is what the answer of its attempt says, or what the error of
      its first recording says, or it is the uncertainty of a lapsed lease. Without an answer nothing was
      sent. */
  lemma {:induction false} RecordIsTruthful(ss: seq<Step>, flow: Flow)
    requires Run(ss, flow).status.Closed?
    ensures var w := Run(ss, flow); var record, t := w.status.record, w.status.under;
      && t in w.attempts
      && var a := w.attempts[t];
      match a.applied
      case NotYet => record == Unsure
      case ByFirst => if a.answer.Some? then record == Classify(flow, a.answer.value) else a.request == NotSent
      case BySecond => a.firstError.Some? && record == if SaysRefused(a.firstError) then Failed else Unsure
  {
    RunTrue(ss, flow);
    var w := Run(ss, flow);
    var t := w.status.under;
    var a := w.attempts[t];
    assert HistoryTrue(a, t, w.status, flow);
    if a.firstError.Some? { SecondRecord(flow, a.firstError.value); }
  }

  // ---- both happen ----

  function Delivering(): seq<Step> {
    [Claim] + [Start(0, false, true)] + [Dispatch(0)] + [Decide(0, true)]
  }

  function Only(status: Status, a: Attempt): World {
    World(status, false, 1, map[0 := a])
  }

  lemma {:induction false} Taking(flow: Flow)
    ensures Run(Delivering(), flow) == Only(Started(0), Attempt(Waiting, Taken, None, NotYet, None))
  {
    RunNext([], Claim, flow);
    assert [] + [Claim] == [Claim];
    RunNext([Claim], Start(0, false, true), flow);
    RunNext([Claim] + [Start(0, false, true)], Dispatch(0), flow);
    RunNext([Claim] + [Start(0, false, true)] + [Dispatch(0)], Decide(0, true), flow);
    assert Run([], flow) == Initial();
    assert Run([Claim], flow) == Only(Leased(0), Unsent(Claimed));
    assert Run([Claim] + [Start(0, false, true)], flow) == Only(Started(0), Unsent(Preparing));
    assert Run([Claim] + [Start(0, false, true)] + [Dispatch(0)], flow)
      == Only(Started(0), Unsent(Waiting).(request := InFlight));
  }

  /** The world when the answer has come back. */
  lemma {:induction false} AnswerComes(wire: Wire, flow: Flow)
    requires !Confirmed429(wire)
    ensures Run(Delivering() + [Answer(0, wire)], flow) == Only(Started(0),
      Attempt(Recording(Classify(flow, wire), Send(flow, wire).Returned?), Taken, Some(wire), NotYet, None))
  {
    Taking(flow);
    RunNext(Delivering(), Answer(0, wire), flow);
  }

  lemma {:induction false} OneFinish(a: Attempt, refused: bool, error: Error, flow: Flow)
    requires a.phase.Recording?
    ensures var w := Only(Started(0), a);
      Next(w, Finish(0, refused, true, error), flow)
        == Only(Recorded(w, 0, a.phase.record, refused), Finished(w, 0, refused, true, error, flow))
  {
  }

  /** In every flow: the provider takes the message, but the answer is a client error. */
  lemma {:induction false} ClientErrorAfterAcceptance(flow: Flow)
    ensures var w := Run(Delivering() + [Answer(0, Response(400, None, NotJson))]
      + [Finish(0, false, true, OtherError)], flow);
      w.status == Closed(Failed, 0) && 0 in w.attempts && w.attempts[0].request == Taken
  {
    var wire := Response(400, None, NotJson);
    var a := Attempt(Recording(Classify(flow, wire), Send(flow, wire).Returned?), Taken, Some(wire), NotYet, None);
    AnswerComes(wire, flow);
    RunNext(Delivering() + [Answer(0, wire)], Finish(0, false, true, OtherError), flow);
    FailedIff(flow, wire);
    OneFinish(a, false, OtherError, flow);
  }

  /** In every flow: the answer says accepted, but Work turns the first recording away. */
  lemma {:induction false} RefusedRecordAfterAcceptance(code: nat, flow: Flow)
    requires code < 500
    ensures var wire := Response(200, None, Row(true, Some(Accepted), true));
      var w := Run(Delivering() + [Answer(0, wire)] + [Finish(0, true, true, WorkHttp(code))]
        + [Finish(0, false, true, OtherError)], flow);
      w.status == Closed(Failed, 0) && 0 in w.attempts && w.attempts[0].request == Taken
  {
    var wire := Response(200, None, Row(true, Some(Accepted), true));
    var first, second := Finish(0, true, true, WorkHttp(code)), Finish(0, false, true, OtherError);
    var a := Attempt(Recording(Delivered, true), Taken, Some(wire), NotYet, None);
    var a1 := Attempt(Recording(Failed, false), Taken, Some(wire), NotYet, Some(WorkHttp(code)));
    DeliveredIff(flow, wire);
    AnswerComes(wire, flow);
    RunNext(Delivering() + [Answer(0, wire)], first, flow);
    RunNext(Delivering() + [Answer(0, wire)] + [first], second, flow);
    SecondRecord(flow, WorkHttp(code));
    OneFinish(a, true, WorkHttp(code), flow);
    OneFinish(a1, false, OtherError, flow);
  }
}
