/** Durable input receipts: which requests a stored log proves to have been completed. */
module InputReceipts {
  import opened Options
  import opened SessionLog
  import CodexImport

  // ---------------------------------------------------------------------
  // What a receipt is
  // ---------------------------------------------------------------------

  predicate Boundary(r: Record) {
    r.TurnStart? || r.TurnEnd?
  }

  function At(rs: seq<Record>, i: nat): Record
    requires i < |rs|
  {
    rs[i]
  }

  /** No turn starts or ends at the indices `lo`, …, `hi - 1`. */
  ghost predicate Quiet(rs: seq<Record>, lo: nat, hi: nat) {
    hi <= |rs| && forall i: nat :: lo <= i < hi ==> !Boundary(At(rs, i))
  }

  /** A message of the user with this request id that does not claim another turn. */
  predicate Says(r: Record, id: string, turn: nat) {
    r.UserMessage? && r.fromUser && r.rpcId == Some(id) && (r.atTurn == None || r.atTurn == Some(turn))
  }

  predicate Starts(r: Record, turn: nat) {
    r == TurnStart(Some(turn))
  }

  /** A turn that starts at `s` and completes at `e`, with the request's message in between. */
  ghost predicate Proof(rs: seq<Record>, id: string, s: nat, m: nat, e: nat) {
    && s < m < e < |rs|
    && At(rs, s).TurnStart? && At(rs, s).turn.Some?
    && Says(At(rs, m), id, At(rs, s).turn.value)
    && At(rs, e) == TurnEnd(At(rs, s).turn, true)
    && Quiet(rs, s + 1, e)
  }

  ghost predicate CompletedBefore(rs: seq<Record>, id: string, end: nat) {
    exists s: nat, m: nat, e: nat :: e < end && Proof(rs, id, s, m, e)
  }

  ghost predicate Completed(rs: seq<Record>, id: string) {
    CompletedBefore(rs, id, |rs|)
  }

  // ---------------------------------------------------------------------
  // completedRequestIds
  // ---------------------------------------------------------------------

  datatype Active = Active(turn: nat, requestIds: set<string>)

  ghost predicate SaidIn(rs: seq<Record>, id: string, turn: nat, lo: nat, hi: nat) {
    hi <= |rs| && exists m: nat :: lo <= m < hi && Says(At(rs, m), id, turn)
  }

  /** `active` is the turn that is open before index `i`; it started at `start`. */
  ghost predicate ActiveOk(rs: seq<Record>, requested: seq<string>, i: nat, start: nat, active: Option<Active>) {
    && i <= |rs|
    && (active.Some? ==>
          && start < i && Starts(At(rs, start), active.value.turn) && Quiet(rs, start + 1, i)
          && forall id ::
            id in active.value.requestIds <==> id in requested && SaidIn(rs, id, active.value.turn, start + 1, i))
    && (active.None? ==> forall s: nat ::
          s < i && At(rs, s).TurnStart? && At(rs, s).turn.Some? ==> !Quiet(rs, s + 1, i))
  }

  ghost predicate CompletedOk(rs: seq<Record>, requested: seq<string>, i: nat, completed: set<string>) {
    forall id :: id in completed <==> id in requested && CompletedBefore(rs, id, i)
  }

  /** One pass of the loop over the events. */
  function Scan(r: Record, requested: seq<string>, active: Option<Active>, completed: set<string>)
    : (Option<Active>, set<string>)
  {
    match r
    case TurnStart(turn) => (if turn.Some? then Some(Active(turn.value, {})) else None, completed)
    case UserMessage(_, fromUser, rpcId, atTurn) =>
      if active.Some? && fromUser && rpcId.Some? && rpcId.value in requested
        && (atTurn == None || atTurn == Some(active.value.turn))
      then (Some(Active(active.value.turn, active.value.requestIds + {rpcId.value})), completed)
      else (active, completed)
    case TurnEnd(turn, done) =>
      if active.None? then (active, completed)
      else if turn == Some(active.value.turn) && done then (None, completed + active.value.requestIds)
      else (None, completed)
    case _ => (active, completed)
  }

  lemma {:induction false} QuietStep(rs: seq<Record>, lo: nat, i: nat)
    requires i < |rs| && lo <= i
    ensures Quiet(rs, lo, i + 1) <==> Quiet(rs, lo, i) && !Boundary(At(rs, i))
  {
  }

  lemma {:induction false} SaidStep(rs: seq<Record>, id: string, turn: nat, lo: nat, i: nat)
    requires i < |rs| && lo <= i
    ensures SaidIn(rs, id, turn, lo, i + 1) <==> SaidIn(rs, id, turn, lo, i) || Says(At(rs, i), id, turn)
  {
    if SaidIn(rs, id, turn, lo, i) {
      var m: nat :| lo <= m < i && Says(At(rs, m), id, turn);
    }
  }

  /** Two turn starts with no boundary behind them up to the same index are the same one. */
  lemma {:induction false} SameStart(rs: seq<Record>, s: nat, t: nat, i: nat)
    requires s < i <= |rs| && t < i && Boundary(At(rs, s)) && Boundary(At(rs, t))
    requires Quiet(rs, s + 1, i) && Quiet(rs, t + 1, i)
    ensures s == t
  {
  }

  lemma {:induction false} ActiveInTurn(rs: seq<Record>, requested: seq<string>, i: nat, start: nat,
                                        active: Option<Active>)
    requires i < |rs| && ActiveOk(rs, requested, i, start, active) && !Boundary(At(rs, i))
    ensures ActiveOk(rs, requested, i + 1, start, Scan(At(rs, i), requested, active, {}).0)
  {
    if active.Some? {
      var turn := active.value.turn;
      QuietStep(rs, start + 1, i);
      forall id ensures SaidIn(rs, id, turn, start + 1, i + 1)
        <==> SaidIn(rs, id, turn, start + 1, i) || Says(At(rs, i), id, turn) {
        SaidStep(rs, id, turn, start + 1, i);
      }
    } else {
      forall s: nat | s < i + 1 && At(rs, s).TurnStart? && At(rs, s).turn.Some? ensures !Quiet(rs, s + 1, i + 1) {
        QuietStep(rs, s + 1, i);
      }
    }
  }

  lemma {:induction false} ActiveAtBoundary(rs: seq<Record>, requested: seq<string>, i: nat, start: nat,
                                            active: Option<Active>)
    requires i < |rs| && ActiveOk(rs, requested, i, start, active) && Boundary(At(rs, i))
    ensures ActiveOk(rs, requested, i + 1, i, Scan(At(rs, i), requested, active, {}).0)
  {
    forall s: nat | s < i && At(rs, s).TurnStart? ensures !Quiet(rs, s + 1, i + 1) { assert Boundary(At(rs, i)); }
  }

  lemma {:induction false} CompletedGrows(rs: seq<Record>, id: string, i: nat, m: nat, s: nat)
    requires i < |rs| && Proof(rs, id, s, m, i)
    ensures CompletedBefore(rs, id, i + 1)
  {
  }

  lemma {:induction false} CompletedStep(rs: seq<Record>, id: string, i: nat)
    requires i < |rs|
    ensures CompletedBefore(rs, id, i) ==> CompletedBefore(rs, id, i + 1)
    ensures CompletedBefore(rs, id, i + 1) ==>
      CompletedBefore(rs, id, i) || exists s: nat, m: nat :: Proof(rs, id, s, m, i)
  {
  }

  /** What closing the open turn at index `i` completes. */
  lemma {:induction false} EndProves(rs: seq<Record>, requested: seq<string>, i: nat, start: nat,
                                     active: Option<Active>, id: string)
    requires i < |rs| && ActiveOk(rs, requested, i, start, active) && id in requested
    ensures (exists s: nat, m: nat :: Proof(rs, id, s, m, i)) <==>
      active.Some? && At(rs, i) == TurnEnd(Some(active.value.turn), true) && id in active.value.requestIds
  {
    if s: nat, m: nat :| Proof(rs, id, s, m, i) {
      if active.Some? { SameStart(rs, s, start, i); }
    }
    if active.Some? && At(rs, i) == TurnEnd(Some(active.value.turn), true) && id in active.value.requestIds {
      var m: nat :| start + 1 <= m < i && Says(At(rs, m), id, active.value.turn);
      assert Proof(rs, id, start, m, i);
    }
  }

  lemma {:induction false} ScanCompletes(rs: seq<Record>, requested: seq<string>, i: nat, start: nat,
                                         active: Option<Active>, completed: set<string>)
    requires i < |rs| && ActiveOk(rs, requested, i, start, active) && CompletedOk(rs, requested, i, completed)
    ensures CompletedOk(rs, requested, i + 1, Scan(At(rs, i), requested, active, completed).1)
  {
    var completed' := Scan(At(rs, i), requested, active, completed).1;
    forall id ensures id in completed' <==> id in requested && CompletedBefore(rs, id, i + 1) {
      CompletedStep(rs, id, i);
      if id in requested {
        EndProves(rs, requested, i, start, active, id);
        if s: nat, m: nat :| Proof(rs, id, s, m, i) { CompletedGrows(rs, id, i, m, s); }
      }
    }
  }

  ghost function Proved(rs: seq<Record>, requested: seq<string>): seq<string> {
    if requested == [] then []
    else (if Completed(rs, requested[0]) then [requested[0]] else []) + Proved(rs, requested[1..])
  }

  function Filter(requested: seq<string>, completed: set<string>): seq<string> {
    if requested == [] then []
    else (if requested[0] in completed then [requested[0]] else []) + Filter(requested[1..], completed)
  }

  lemma {:induction false} FilterIsProved(rs: seq<Record>, requested: seq<string>, all: seq<string>,
                                          completed: set<string>)
    requires CompletedOk(rs, all, |rs|, completed) && forall id :: id in requested ==> id in all
    ensures Filter(requested, completed) == Proved(rs, requested)
  {
    if requested != [] {
      assert requested[0] in requested;
      FilterIsProved(rs, requested[1..], all, completed);
    }
  }

  /** Exactly the requested ids with a receipt in the log, in the order of the request. */
  method CompletedRequestIds(rs: seq<Record>, requested: seq<string>) returns (ids: seq<string>)
    ensures ids == Proved(rs, requested)
  {
    var completed: set<string>, active: Option<Active> := {}, None;
    ghost var start := 0;
    for i := 0 to |rs|
      invariant ActiveOk(rs, requested, i, start, active)
      invariant CompletedOk(rs, requested, i, completed)
    {
      ScanCompletes(rs, requested, i, start, active, completed);
      if Boundary(At(rs, i)) { ActiveAtBoundary(rs, requested, i, start, active); start := i; }
      else { ActiveInTurn(rs, requested, i, start, active); }
      var next := Scan(rs[i], requested, active, completed);
      active, completed := next.0, next.1;
    }
    FilterIsProved(rs, requested, requested, completed);
    ids := Filter(requested, completed);
  }

  // ---------------------------------------------------------------------
  // Windows
  // ---------------------------------------------------------------------

  lemma {:induction false} ProofShifts(a: seq<Record>, b: seq<Record>, c: seq<Record>, id: string, s: nat, m: nat,
                                       e: nat)
    requires s < m < e < |b|
    ensures Proof(b, id, s, m, e) <==> Proof(a + b + c, id, |a| + s, |a| + m, |a| + e)
  {
    var whole := a + b + c;
    assert forall i: nat :: i < |b| ==> At(b, i) == At(whole, |a| + i);
    if Proof(b, id, s, m, e) {
      forall i: nat | |a| + s + 1 <= i < |a| + e ensures !Boundary(At(whole, i))
        { assert At(b, i - |a|) == At(whole, i); }
    }
    if Proof(whole, id, |a| + s, |a| + m, |a| + e) {
      forall i: nat | s + 1 <= i < e ensures !Boundary(At(b, i)) { assert At(b, i) == At(whole, |a| + i); }
    }
  }

  /** Events in front of or behind a stretch of log never take a receipt away from it. */
  lemma {:induction false} ContextKeepsReceipts(a: seq<Record>, b: seq<Record>, c: seq<Record>, id: string)
    requires Completed(b, id)
    ensures Completed(a + b + c, id)
  {
    var s: nat, m: nat, e: nat :| e < |b| && Proof(b, id, s, m, e);
    ProofShifts(a, b, c, id, s, m, e);
    assert |a| + e < |a + b + c|;
  }

  const MAX_INPUT_RECEIPT_EVENTS: nat := 4096

  /** The part of a log of `eventCount` events the receipt route reads. */
  function Window(log: seq<Record>, eventCount: nat): seq<Record>
    requires eventCount <= |log|
  {
    var offset := if eventCount >= MAX_INPUT_RECEIPT_EVENTS then eventCount - MAX_INPUT_RECEIPT_EVENTS else 0;
    log[offset..eventCount]
  }

  ghost predicate CompletedFrom(rs: seq<Record>, id: string, start: nat) {
    exists s: nat, m: nat, e: nat :: s >= start && e < |rs| && Proof(rs, id, s, m, e)
  }

  /** A suffix gives exactly the receipts whose turn starts inside it. */
  lemma {:induction false} SuffixIff(a: seq<Record>, b: seq<Record>, id: string)
    ensures Completed(b, id) <==> CompletedFrom(a + b, id, |a|)
  {
    assert a + b + [] == a + b;
    if Completed(b, id) {
      var s: nat, m: nat, e: nat :| e < |b| && Proof(b, id, s, m, e);
      ProofShifts(a, b, [], id, s, m, e);
      assert |a| + s >= |a| && |a| + e < |a + b|;
    }
    if CompletedFrom(a + b, id, |a|) {
      var s: nat, m: nat, e: nat :| s >= |a| && e < |a + b| && Proof(a + b, id, s, m, e);
      ProofShifts(a, b, [], id, s - |a|, m - |a|, e - |a|);
      assert e - |a| < |b|;
    }
  }

  /** The window never shows a receipt the log does not give, however much the log has grown since the
      snapshot, and it shows one of the snapshot iff the turn began inside the window. */
  lemma {:induction false} WindowIsSound(log: seq<Record>, eventCount: nat, id: string)
    requires eventCount <= |log|
    ensures Completed(Window(log, eventCount), id) ==> Completed(log[..eventCount], id) && Completed(log, id)
    ensures Completed(Window(log, eventCount), id) <==>
      CompletedFrom(log[..eventCount], id, eventCount - |Window(log, eventCount)|)
    ensures |Window(log, eventCount)| == if eventCount <= MAX_INPUT_RECEIPT_EVENTS then eventCount
      else MAX_INPUT_RECEIPT_EVENTS
  {
    var w := Window(log, eventCount);
    var before := log[..eventCount - |w|];
    assert log == before + w + log[eventCount..] && log[..eventCount] == before + w;
    SuffixIff(before, w, id);
    if Completed(w, id) {
      ContextKeepsReceipts(before, w, log[eventCount..], id);
      assert before + w + [] == before + w;
      ContextKeepsReceipts(before, w, [], id);
    }
  }

  // ---------------------------------------------------------------------
  // Imported logs
  // ---------------------------------------------------------------------

  ghost predicate Anonymous(rs: seq<Record>) {
    forall i :: 0 <= i < |rs| ==> rs[i].UserMessage? ==> rs[i].rpcId == None
  }

  lemma {:induction false} RegionIsAnonymous(ts: seq<CodexImport.Turn>, n: nat)
    ensures Anonymous(CodexImport.Region(ts, n))
  {
    if ts != [] { RegionIsAnonymous(ts[1..], n + 1); }
  }

  /** Imported history proves nothing about live requests, for any import and any request id. */
  lemma {:induction false} ImportGivesNoReceipt(ms: seq<CodexImport.Message>, items: seq<int>, digest: string,
                                                id: string)
    ensures !Completed(CodexImport.Imported(ms, items, digest), id)
  {
    RegionIsAnonymous(CodexImport.Turns(ms), 1);
    CodexImport.HistoriesHaveNoEnd(items);
    var rs, region := CodexImport.Imported(ms, items, digest), CodexImport.Region(CodexImport.Turns(ms), 1);
    forall m: nat, turn: nat | m < |rs| ensures !Says(At(rs, m), id, turn) {
      if m < |region| { assert rs[m] == region[m]; }
      else { assert rs[m] == CodexImport.Tail(items, digest)[m - |region|]; }
    }
  }
}
