/**
 One run of the Antigravity CLI: newline-delimited JSON events on stdout drive a
 protocol automaton, and the run resolves only for one language of event traces.
 `decode` stands for `JSON.parse` and the field reads behind it; a byte of output
 is one character.
 */
module AntigravityRun {
  import opened Options
  import opened LineFraming

  /** A JSON field that is compared with a step index. */
  datatype Field = Absent | Index(value: nat) | Other

  datatype StepKind =
    | Tool(isFinish: bool, toolIndex: Field)
    | Finish(stepIndex: Field, done: bool)
    | Named(allowed: bool)                 // any other step type

  datatype Event =
    | Malformed                            // not JSON, or not an event object
    | Init(expected: bool)                 // model, agent, permission mode and schema are the expected ones
    | Step(isRecord: bool, subagent: bool, kind: StepKind)
    | FinishEvent(index: Field, toolOk: bool)
    | Result(wellFormed: bool, success: bool, structured: bool, schemaOk: bool, value: int)
    | Unknown

  datatype RunState = RunState(initialized: bool, finishIndex: Option<nat>, result: Option<int>, failed: bool)

  function Fresh(): RunState {
    RunState(false, None, None, false)
  }

  function Matches(f: Field, known: Option<nat>): bool {
    f.Index? && known == Some(f.value)
  }

  /** `consumeEvent`; a thrown error is the flag `failed`. */
  function Consume(s: RunState, e: Event): RunState {
    var broken := s.(failed := true);
    if s.failed || s.result.Some? then broken
    else
      match e
      case Init(expected) => if s.initialized || !expected then broken else s.(initialized := true)
      case Step(isRecord, subagent, kind) =>
        if !s.initialized || !isRecord || subagent then broken
        else (match kind
          case Tool(isFinish, index) =>
            if !isFinish || !index.Index? then broken
            else if s.finishIndex.Some? && s.finishIndex.value != index.value then broken
            else s.(finishIndex := Some(index.value))
          case Finish(index, done) => if !Matches(index, s.finishIndex) || !done then broken else s
          case Named(allowed) => if allowed then s else broken)
      case FinishEvent(index, toolOk) =>
        if !s.initialized || s.finishIndex.None? then broken
        else if (index != Absent && !Matches(index, s.finishIndex)) || !toolOk then broken
        else s
      case Result(wellFormed, success, structured, schemaOk, value) =>
        if !s.initialized || s.finishIndex.None? || !wellFormed || !success || !structured || !schemaOk then broken
        else s.(result := Some(value))
      case Malformed => broken
      case Unknown => broken
  }

  function ConsumeAll(s: RunState, es: seq<Event>): RunState
    decreases |es|
  {
    if es == [] then s else ConsumeAll(Consume(s, es[0]), es[1..])
  }

  // ---------------------------------------------------------------------
  // The language of accepted traces
  // ---------------------------------------------------------------------

  predicate FinishTool(e: Event, n: nat) {
    e == Step(true, false, Tool(true, Index(n)))
  }

  function At(es: seq<Event>, i: nat): Event
    requires i < |es|
  {
    es[i]
  }

  /** A finish tool step with index `n` occurs before position `k`. */
  ghost predicate ToolBefore(es: seq<Event>, n: nat, k: nat) {
    k <= |es| && exists t: nat :: t < k && FinishTool(At(es, t), n)
  }

  /** What may stand between the first and the last event: allowed steps, finish tool steps with the one
      index `n`, and, once there was one, its completions. */
  ghost predicate Between(es: seq<Event>, n: nat, i: nat)
    requires i < |es|
  {
    match At(es, i)
    case Step(true, false, Tool(true, Index(m))) => m == n
    case Step(true, false, Finish(Index(m), true)) => m == n && ToolBefore(es, n, i)
    case Step(true, false, Named(true)) => true
    case FinishEvent(Absent, true) => ToolBefore(es, n, i)
    case FinishEvent(Index(m), true) => m == n && ToolBefore(es, n, i)
    case _ => false
  }

  predicate GoodResult(e: Event, value: int) {
    e == Result(true, true, true, true, value)
  }

  /** One good init first, one good result last, and finish tool steps with one common index. */
  ghost predicate Accepted(es: seq<Event>, n: nat, value: int) {
    && |es| >= 2
    && es[0] == Init(true)
    && GoodResult(es[|es| - 1], value)
    && ToolBefore(es, n, |es| - 1)
    && forall i: nat :: 0 < i < |es| - 1 ==> Between(es, n, i)
  }

  // ---------------------------------------------------------------------
  // The automaton accepts exactly that language
  // ---------------------------------------------------------------------

  lemma {:induction false} ConsumeLast(s: RunState, es: seq<Event>, e: Event)
    ensures ConsumeAll(s, es + [e]) == Consume(ConsumeAll(s, es), e)
    decreases |es|
  {
    if es == [] {
      assert es + [e] == [e] && [e][1..] == [];
      assert ConsumeAll(s, [e]) == ConsumeAll(Consume(s, e), []);
    } else {
      assert (es + [e])[1..] == es[1..] + [e];
      ConsumeLast(Consume(s, es[0]), es[1..], e);
    }
  }

  function After(es: seq<Event>, k: nat): RunState
    requires k <= |es|
  {
    ConsumeAll(Fresh(), es[..k])
  }

  lemma {:induction false} AfterNext(es: seq<Event>, k: nat)
    requires k < |es|
    ensures After(es, k + 1) == Consume(After(es, k), At(es, k))
  {
    assert es[..k + 1] == es[..k] + [es[k]];
    ConsumeLast(Fresh(), es[..k], es[k]);
  }

  /** What is known when the first `k` events were accepted and none was a result. */
  ghost predicate Going(es: seq<Event>, k: nat, s: RunState) {
    && 1 <= k <= |es| && es[0] == Init(true)
    && s.initialized && !s.failed && s.result.None?
    && (s.finishIndex.Some? ==> ToolBefore(es, s.finishIndex.value, k))
    && (s.finishIndex.Some? ==> forall i: nat :: 0 < i < k ==> Between(es, s.finishIndex.value, i))
    && (s.finishIndex.None? ==> forall i: nat :: 0 < i < k ==> At(es, i) == Step(true, false, Named(true)))
  }

  lemma {:induction false} GoingOn(es: seq<Event>, k: nat, s: RunState)
    requires Going(es, k, s) && k < |es|
    ensures var s' := Consume(s, At(es, k));
      s'.failed || Going(es, k + 1, s') ||
        (s'.result.Some? && s.finishIndex.Some? && GoodResult(At(es, k), s'.result.value))
  {
    var s' := Consume(s, At(es, k));
    if !s'.failed && s'.result.None? && s'.finishIndex.Some? {
      var n := s'.finishIndex.value;
      if s.finishIndex.Some? {
        assert ToolBefore(es, n, k);
      } else {
        assert FinishTool(At(es, k), n);
      }
      assert ToolBefore(es, n, k + 1);
      assert Between(es, n, k);
    }
  }

  lemma {:induction false} FailedStays(es: seq<Event>, j: nat, k: nat)
    requires j <= k <= |es| && After(es, j).failed
    ensures After(es, k).failed
  {
    if j < k {
      FailedStays(es, j, k - 1);
      AfterNext(es, k - 1);
    }
  }

  lemma {:induction false} FirstEvent(es: seq<Event>)
    requires es != []
    ensures After(es, 1).failed || Going(es, 1, After(es, 1))
  {
    AfterNext(es, 0);
    assert After(es, 0) == Fresh();
  }

  /** Every prefix of a trace is accepted so far, ended by its result, or failed. */
  lemma {:induction false} Prefix(es: seq<Event>, k: nat)
    requires 1 <= k <= |es|
    ensures var s := After(es, k);
      || s.failed || Going(es, k, s)
      || (s.result.Some? && k >= 2 && Going(es, k - 1, After(es, k - 1))
            && After(es, k - 1).finishIndex.Some? && GoodResult(At(es, k - 1), s.result.value))
  {
    if k == 1 {
      FirstEvent(es);
    } else {
      Prefix(es, k - 1);
      AfterNext(es, k - 1);
      if Going(es, k - 1, After(es, k - 1)) { GoingOn(es, k - 1, After(es, k - 1)); }
    }
  }

  /** The state in the middle of an accepted trace. */
  lemma {:induction false} AcceptedSoFar(es: seq<Event>, n: nat, value: int, k: nat)
    requires Accepted(es, n, value) && 1 <= k < |es|
    ensures var s := After(es, k);
      !s.failed && s.initialized && s.result.None? && s.finishIndex == if ToolBefore(es, n, k) then Some(n) else None
  {
    AfterNext(es, k - 1);
    if k == 1 {
      assert After(es, 0) == Fresh();
    } else {
      AcceptedSoFar(es, n, value, k - 1);
      assert Between(es, n, k - 1);
      ToolBeforeNext(es, n, k - 1);
    }
  }

  lemma {:induction false} ToolBeforeNext(es: seq<Event>, n: nat, k: nat)
    requires k < |es|
    ensures ToolBefore(es, n, k + 1) <==> ToolBefore(es, n, k) || FinishTool(At(es, k), n)
  {
  }

  /** A trace leads to a result exactly if it is in the language. */
  lemma {:induction false} AcceptsIff(es: seq<Event>, value: int)
    ensures var s := ConsumeAll(Fresh(), es);
      (!s.failed && s.result == Some(value)) <==> exists n: nat :: Accepted(es, n, value)
  {
    assert es[..|es|] == es;
    var s := ConsumeAll(Fresh(), es);
    if !s.failed && s.result == Some(value) {
      if es != [] {
        Prefix(es, |es|);
        assert Accepted(es, After(es, |es| - 1).finishIndex.value, value);
      }
    }
    if n: nat :| Accepted(es, n, value) {
      AcceptedSoFar(es, n, value, |es| - 1);
      AfterNext(es, |es| - 1);
    }
  }

  // ---------------------------------------------------------------------
  // Lines and chunks
  // ---------------------------------------------------------------------

  function TakeLine(s: RunState, line: string, decode: string -> Event): RunState {
    if Trim(line) == "" || s.failed then s else Consume(s, decode(Trim(line)))
  }

  function Reader(decode: string -> Event): Machine<RunState> {
    Machine((s: RunState, line: string) => TakeLine(s, line, decode), (s: RunState) => false)
  }

  /** The events of a text: one for every line that is not blank. */
  function EventsOf(text: string, decode: string -> Event): seq<Event>
    decreases |text|
  {
    var k := IndexOf(text, '\n');
    if k < 0 then EventOf(text, decode) else EventOf(text[..k], decode) + EventsOf(text[k + 1..], decode)
  }

  function EventOf(line: string, decode: string -> Event): seq<Event> {
    if Trim(line) == "" then [] else [decode(Trim(line))]
  }

  lemma {:induction false} FailedIgnores(s: RunState, es: seq<Event>)
    requires s.failed
    ensures ConsumeAll(s, es) == s
    decreases |es|
  {
    if es != [] { FailedIgnores(s, es[1..]); }
  }

  lemma {:induction false} TakeIsConsume(s: RunState, line: string, es: seq<Event>, decode: string -> Event)
    ensures ConsumeAll(TakeLine(s, line, decode), es) == ConsumeAll(s, EventOf(line, decode) + es)
  {
    var e := EventOf(line, decode);
    if e == [] {
      assert e + es == es;
    } else {
      assert (e + es)[1..] == es;
      if s.failed { FailedIgnores(s, es); FailedIgnores(s, e + es); }
    }
  }

  lemma {:induction false} LastLine(s: RunState, line: string, decode: string -> Event)
    ensures TakeLine(s, line, decode) == ConsumeAll(s, EventOf(line, decode))
  {
    TakeIsConsume(s, line, [], decode);
    assert EventOf(line, decode) + [] == EventOf(line, decode);
  }

  /** What the run would make of the text if it ended here. */
  function Ending(s: RunState, text: string, decode: string -> Event): RunState {
    var end := Lines(s, text, Reader(decode));
    TakeLine(end.0, end.1, decode)
  }

  lemma {:induction false} EndingNext(s: RunState, text: string, decode: string -> Event)
    ensures var k := IndexOf(text, '\n');
      Ending(s, text, decode) == if k < 0 then TakeLine(s, text, decode)
        else Ending(TakeLine(s, text[..k], decode), text[k + 1..], decode)
  {
  }

  lemma {:induction false} LinesAreEvents(s: RunState, text: string, decode: string -> Event)
    ensures Ending(s, text, decode) == ConsumeAll(s, EventsOf(text, decode))
    decreases |text|
  {
    var k := IndexOf(text, '\n');
    EndingNext(s, text, decode);
    if k < 0 {
      LastLine(s, text, decode);
    } else {
      var s1, more := TakeLine(s, text[..k], decode), text[k + 1..];
      LinesAreEvents(s1, more, decode);
      TakeIsConsume(s, text[..k], EventsOf(more, decode), decode);
    }
  }

  lemma {:induction false} NextChunk(s: RunState, buffer: string, chunk: string, more: string, decode: string -> Event)
    ensures var (q, r) := Lines(s, buffer + chunk, Reader(decode));
      Lines(q, r + more, Reader(decode)) == Lines(s, buffer + (chunk + more), Reader(decode)) && IndexOf(r, '\n') < 0
  {
    LinesRest(s, buffer + chunk, Reader(decode));
    LinesSplit(s, buffer + chunk, more, Reader(decode));
    assert buffer + (chunk + more) == (buffer + chunk) + more;
  }

  /** The run resolves, with the value of its last event, exactly if the output is within its limit, the
      process exits with code 0 without timeout or abort, and the trace of the whole output is accepted;
      chunk boundaries do not matter. */
  method RunCli(chunks: seq<string>, exitCode: int, interrupted: bool, maxOutput: nat, decode: string -> Event)
    returns (r: Option<int>)
    ensures forall value :: r == Some(value) <==>
      && |Concat(chunks)| <= maxOutput && exitCode == 0 && !interrupted
      && exists n: nat :: Accepted(EventsOf(Concat(chunks), decode), n, value)
  {
    var state, buffer, tooLong := Read(chunks, maxOutput, decode);
    ghost var es := EventsOf(Concat(chunks), decode);
    forall value ensures (var s := ConsumeAll(Fresh(), es); !s.failed && s.result == Some(value))
      <==> exists n: nat :: Accepted(es, n, value) {
      AcceptsIff(es, value);
    }
    if tooLong || interrupted || state.failed {
      if !tooLong { FailedBefore(state, buffer, decode); }
      return None;
    }
    state := TakeLine(state, buffer, decode);
    if state.failed || exitCode != 0 { return None; }
    return state.result;
  }

  lemma {:induction false} FailedBefore(s: RunState, buffer: string, decode: string -> Event)
    ensures s.failed ==> TakeLine(s, buffer, decode).failed
  {
  }

  /** The stdout listener. */
  method Read(chunks: seq<string>, maxOutput: nat, decode: string -> Event)
    returns (state: RunState, buffer: string, tooLong: bool)
    ensures tooLong <==> |Concat(chunks)| > maxOutput
    ensures !tooLong ==> TakeLine(state, buffer, decode) == ConsumeAll(Fresh(), EventsOf(Concat(chunks), decode))
  {
    var outputBytes: nat := 0;
    ghost var whole := Concat(chunks);
    state, buffer, tooLong := Fresh(), "", false;
    assert chunks[0..] == chunks && "" + whole == whole;
    for i := 0 to |chunks|
      invariant outputBytes + |Concat(chunks[i..])| == |whole|
      invariant tooLong <==> outputBytes > maxOutput
      invariant !tooLong ==> IndexOf(buffer, '\n') < 0
      invariant !tooLong ==>
        Lines(state, buffer + Concat(chunks[i..]), Reader(decode)) == Lines(Fresh(), whole, Reader(decode))
    {
      assert chunks[i..][1..] == chunks[i + 1..];
      outputBytes := outputBytes + |chunks[i]|;
      if outputBytes > maxOutput {
        tooLong := true;
      } else {
        NextChunk(state, buffer, chunks[i], Concat(chunks[i + 1..]), decode);
        state, buffer := TakeLines(state, buffer + chunks[i], Reader(decode));
      }
    }
    assert chunks[|chunks|..] == [] && buffer + "" == buffer;
    if !tooLong { AtTheEnd(state, buffer, whole, decode); }
  }

  /** A buffer that gives nothing more than the rest of the whole text. */
  lemma {:induction false} AtTheEnd(s: RunState, buffer: string, whole: string, decode: string -> Event)
    requires Lines(s, buffer, Reader(decode)) == Lines(Fresh(), whole, Reader(decode))
    ensures IndexOf(buffer, '\n') < 0 ==> TakeLine(s, buffer, decode) == ConsumeAll(Fresh(), EventsOf(whole, decode))
  {
    LinesAreEvents(Fresh(), whole, decode);
  }
}
