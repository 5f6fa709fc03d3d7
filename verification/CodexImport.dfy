/**
 Importing a Codex rollout: one loop turns a list of messages into an event log
 of nested turns and steps; preview, continuation and re-import read that log
 back. Event times are not part of the model.
 */
module CodexImport {
  import opened Options
  import opened SessionLog

  datatype Role = User | Assistant

  /** `model` is empty when the native message names none. */
  datatype Message = Message(role: Role, text: string, model: string)

  predicate AllNonEmpty(ms: seq<Message>) {
    forall i :: 0 <= i < |ms| ==> ms[i].text != ""
  }

  // ---------------------------------------------------------------------
  // What the import means: turns
  // ---------------------------------------------------------------------

  /** A turn holds a user message, the reply to it, or both. */
  datatype Turn = Turn(user: Option<Message>, assistant: Option<Message>)

  /** An assistant message belongs to the user message right before it. */
  function Turns(ms: seq<Message>): seq<Turn> {
    if ms == [] then []
    else if ms[0].role == Assistant then [Turn(None, Some(ms[0]))] + Turns(ms[1..])
    else if |ms| >= 2 && ms[1].role == Assistant then [Turn(Some(ms[0]), Some(ms[1]))] + Turns(ms[2..])
    else [Turn(Some(ms[0]), None)] + Turns(ms[1..])
  }

  function ModelOf(m: Message): string {
    if m.model != "" then m.model else "unknown"
  }

  function UserRecord(m: Message): Record {
    UserMessage(m.text, true, None, None)
  }

  function AssistantRecord(m: Message): Record {
    AssistantMessage(m.text, ModelOf(m))
  }

  function Opening(n: nat): seq<Record> {
    [TurnStart(Some(n)), StepStart(n, 1)]
  }

  function Ending(n: nat): seq<Record> {
    [StepEnd(n, 1), TurnEnd(Some(n), true)]
  }

  function Body(t: Turn): seq<Record> {
    (if t.user.Some? then [UserRecord(t.user.value)] else []) +
    (if t.assistant.Some? then [AssistantRecord(t.assistant.value)] else [])
  }

  function TurnRecords(t: Turn, n: nat): seq<Record> {
    Opening(n) + (Body(t) + Ending(n))
  }

  /** The records of turns numbered `n`, `n + 1`, … */
  function Region(ts: seq<Turn>, n: nat): seq<Record> {
    if ts == [] then [] else TurnRecords(ts[0], n) + Region(ts[1..], n + 1)
  }

  function Histories(items: seq<int>): seq<Record> {
    if items == [] then [] else [HistoryRecord(items[0])] + Histories(items[1..])
  }

  function Tail(items: seq<int>, digest: string): seq<Record> {
    Histories(items) + [ImportMarker(digest), EndSeed]
  }

  /** The whole imported log. */
  function Imported(ms: seq<Message>, items: seq<int>, digest: string): seq<Record> {
    Region(Turns(ms), 1) + Tail(items, digest)
  }

  // ---------------------------------------------------------------------
  // buildEvents
  // ---------------------------------------------------------------------

  method Push(events: seq<LogEvent>, sequence: nat, rs: seq<Record>) returns (events': seq<LogEvent>, sequence': nat)
    requires sequence == |events| && Numbered(events)
    ensures sequence' == |events'| && Numbered(events') && RecordsOf(events') == RecordsOf(events) + rs
  {
    events', sequence' := events, sequence;
    for i := 0 to |rs|
      invariant sequence' == |events'| && Numbered(events')
      invariant RecordsOf(events') == RecordsOf(events) + rs[..i]
    {
      var event := LogEvent(sequence', rs[i]);
      NumberedSnoc(events', event);
      RecordsConcat(events', [event]);
      assert (RecordsOf(events) + rs[..i]) + [rs[i]] == RecordsOf(events) + rs[..i + 1];
      events', sequence' := events' + [event], sequence' + 1;
    }
    assert rs[..|rs|] == rs;
  }

  lemma {:induction false} NumberedSnoc(events: seq<LogEvent>, event: LogEvent)
    requires Numbered(events) && event.number == |events|
    ensures Numbered(events + [event])
  {
    forall i: nat | i < |events| + 1 ensures NumberAt(events + [event], i) == i {
      if i < |events| { assert NumberAt(events, i) == i; }
    }
  }

  /** What the loop still has to push when it is in turn `turn`, open or closed. */
  function Rest(ms: seq<Message>, turn: nat, open: bool): seq<Record> {
    if !open then Region(Turns(ms), turn + 1)
    else if ms != [] && ms[0].role == Assistant then [AssistantRecord(ms[0])] + Ending(turn)
      + Region(Turns(ms[1..]), turn + 1)
    else Ending(turn) + Region(Turns(ms), turn + 1)
  }

  /** What one pass of the loop pushes. */
  function Pass(m: Message, turn: nat, open: bool): seq<Record> {
    if m.role == User then (if open then Ending(turn) else []) + Opening(turn + 1) + [UserRecord(m)]
    else if open then [AssistantRecord(m)] + Ending(turn)
    else Opening(turn + 1) + [AssistantRecord(m)] + Ending(turn + 1)
  }

  lemma {:induction false} AnsweredPass(ms: seq<Message>, turn: nat)
    requires |ms| >= 2 && ms[0].role == User && ms[1].role == Assistant
    ensures Region(Turns(ms), turn + 1) == (Opening(turn + 1) + [UserRecord(ms[0])]) +
      ([AssistantRecord(ms[1])] + Ending(turn + 1) + Region(Turns(ms[2..]), turn + 2))
  {
    var t := Turn(Some(ms[0]), Some(ms[1]));
    assert Turns(ms) == [t] + Turns(ms[2..]);
    assert Turns(ms)[1..] == Turns(ms[2..]);
    Regroup(Opening(turn + 1), [UserRecord(ms[0])], [AssistantRecord(ms[1])], Ending(turn + 1),
      Region(Turns(ms[2..]), turn + 2));
  }

  lemma {:induction false} UnansweredPass(ms: seq<Message>, turn: nat)
    requires ms != [] && ms[0].role == User && (|ms| >= 2 ==> ms[1].role == User)
    ensures Region(Turns(ms), turn + 1) == (Opening(turn + 1) + [UserRecord(ms[0])]) +
      (Ending(turn + 1) + Region(Turns(ms[1..]), turn + 2))
  {
    var t, e, r := Turn(Some(ms[0]), None), Ending(turn + 1), Region(Turns(ms[1..]), turn + 2);
    assert Turns(ms) == [t] + Turns(ms[1..]);
    assert Turns(ms)[1..] == Turns(ms[1..]);
    Regroup(Opening(turn + 1), [UserRecord(ms[0])], [], e, r);
    assert [] + e + r == e + r;
  }

  lemma {:induction false} UserPass(ms: seq<Message>, turn: nat)
    requires ms != [] && ms[0].role == User
    ensures Region(Turns(ms), turn + 1) == (Opening(turn + 1) + [UserRecord(ms[0])]) + Rest(ms[1..], turn + 1, true)
  {
    if |ms| >= 2 && ms[1].role == Assistant {
      AnsweredPass(ms, turn);
      assert ms[1..][1..] == ms[2..];
    } else {
      UnansweredPass(ms, turn);
    }
  }

  lemma {:induction false} Regroup(o: seq<Record>, u: seq<Record>, b: seq<Record>, e: seq<Record>, r: seq<Record>)
    ensures (o + ((u + b) + e)) + r == (o + u) + (b + e + r)
  {
  }

  lemma {:induction false} ReplyPass(ms: seq<Message>, turn: nat)
    requires ms != [] && ms[0].role == Assistant
    ensures Region(Turns(ms), turn + 1) ==
      (Opening(turn + 1) + [AssistantRecord(ms[0])] + Ending(turn + 1)) + Region(Turns(ms[1..]), turn + 2)
  {
    var t := Turn(None, Some(ms[0]));
    assert Turns(ms) == [t] + Turns(ms[1..]);
    assert Body(t) == [AssistantRecord(ms[0])];
  }

  lemma {:induction false} PassIsRest(ms: seq<Message>, turn: nat, open: bool)
    requires ms != []
    ensures var m := ms[0];
      Rest(ms, turn, open) == Pass(m, turn, open)
        + Rest(ms[1..], if m.role == User || !open then turn + 1 else turn, m.role == User)
  {
    if ms[0].role == User {
      UserPass(ms, turn);
      var x, o, r := Ending(turn), Opening(turn + 1) + [UserRecord(ms[0])], Rest(ms[1..], turn + 1, true);
      assert x + (o + r) == (x + o) + r;
      assert Ending(turn) + Opening(turn + 1) + [UserRecord(ms[0])] == x + o;
      assert [] + Opening(turn + 1) + [UserRecord(ms[0])] == o;
    } else if !open {
      ReplyPass(ms, turn);
    }
  }

  lemma {:induction false} PassDone(done: seq<Record>, ms: seq<Message>, turn: nat, open: bool)
    requires ms != []
    ensures var m := ms[0];
      done + Rest(ms, turn, open) ==
      (done + Pass(m, turn, open)) + Rest(ms[1..], if m.role == User || !open then turn + 1 else turn, m.role == User)
  {
    PassIsRest(ms, turn, open);
  }

  /** One pass of the loop over the messages. */
  method Visit(events: seq<LogEvent>, sequence: nat, turn: nat, step: nat, turnOpen: bool, message: Message)
    returns (events': seq<LogEvent>, sequence': nat, turn': nat, step': nat, turnOpen': bool)
    requires sequence == |events| && Numbered(events) && (turnOpen ==> step == 1)
    ensures sequence' == |events'| && Numbered(events') && (turnOpen' ==> step' == 1)
    ensures RecordsOf(events') == RecordsOf(events) + Pass(message, turn, turnOpen)
    ensures turn' == (if message.role == User || !turnOpen then turn + 1 else turn)
      && turnOpen' == (message.role == User)
  {
    var rs: seq<Record> := [];
    turn', step', turnOpen' := turn, step, turnOpen;
    if message.role == User {
      if turnOpen { rs := [StepEnd(turn, step), TurnEnd(Some(turn), true)]; }
      turn', step', turnOpen' := turn + 1, 1, true;
      rs := rs + [TurnStart(Some(turn')), StepStart(turn', step')] + [UserMessage(message.text, true, None, None)];
    } else {
      if !turnOpen {
        turn', step' := turn + 1, 1;
        rs := [TurnStart(Some(turn')), StepStart(turn', step')];
      }
      rs := rs + [AssistantMessage(message.text, ModelOf(message))]
        + [StepEnd(turn', step'), TurnEnd(Some(turn'), true)];
      turnOpen' := false;
    }
    assert rs == Pass(message, turn, turnOpen);
    events', sequence' := Push(events, sequence, rs);
  }

  /** The loop produces exactly the turns of the message list, numbered without a gap. */
  method BuildEvents(messages: seq<Message>, history: seq<int>, digest: string) returns (events: seq<LogEvent>)
    ensures Numbered(events)
    ensures RecordsOf(events) == Imported(messages, history, digest)
  {
    var sequence: nat;
    events, sequence := BuildTurns(messages);
    ghost var region := RecordsOf(events);
    for i := 0 to |history|
      invariant sequence == |events| && Numbered(events)
      invariant RecordsOf(events) + Histories(history[i..]) == region + Histories(history)
    {
      assert RecordsOf(events) + ([HistoryRecord(history[i])] + Histories(history[i + 1..]))
        == (RecordsOf(events) + [HistoryRecord(history[i])]) + Histories(history[i + 1..]);
      assert history[i..][1..] == history[i + 1..];
      events, sequence := Push(events, sequence, [HistoryRecord(history[i])]);
    }
    assert RecordsOf(events) == region + Histories(history);
    events, sequence := Push(events, sequence, [ImportMarker(digest), EndSeed]);
  }

  method BuildTurns(messages: seq<Message>) returns (events: seq<LogEvent>, sequence: nat)
    ensures sequence == |events| && Numbered(events)
    ensures RecordsOf(events) == Region(Turns(messages), 1)
  {
    events, sequence := [], 0;
    var turn, step, turnOpen := 0, 0, false;
    ghost var whole := Region(Turns(messages), 1);
    assert [] + Rest(messages, 0, false) == whole;
    assert messages[0..] == messages;
    for i := 0 to |messages|
      invariant sequence == |events| && Numbered(events) && (turnOpen ==> step == 1)
      invariant RecordsOf(events) + Rest(messages[i..], turn, turnOpen) == whole
    {
      assert messages[i..][1..] == messages[i + 1..];
      PassDone(RecordsOf(events), messages[i..], turn, turnOpen);
      events, sequence, turn, step, turnOpen := Visit(events, sequence, turn, step, turnOpen, messages[i]);
    }
    assert messages[|messages|..] == [];
    if turnOpen { events, sequence := Push(events, sequence, [StepEnd(turn, step), TurnEnd(Some(turn), true)]); }
  }

  // ---------------------------------------------------------------------
  // Nesting
  // ---------------------------------------------------------------------

  /** An independent reader of logs: turns in order, each with one step, messages inside the step only. */
  datatype Nesting = Between(turns: nat) | TurnOpen(turn: nat) | StepOpen(turn: nat) | StepDone(turn: nat) | Broken

  function Read1(s: Nesting, r: Record): Nesting {
    match r
    case TurnStart(t) => if s.Between? && t == Some(s.turns + 1) then TurnOpen(s.turns + 1) else Broken
    case StepStart(t, k) => if s == TurnOpen(t) && k == 1 then StepOpen(t) else Broken
    case UserMessage(_, _, _, _) => if s.StepOpen? then s else Broken
    case AssistantMessage(_, _) => if s.StepOpen? then s else Broken
    case StepEnd(t, k) => if s == StepOpen(t) && k == 1 then StepDone(t) else Broken
    case TurnEnd(t, completed) => if s.StepDone? && t == Some(s.turn) && completed then Between(s.turn) else Broken
    case _ => if s.Between? then s else Broken
  }

  function ReadAll(s: Nesting, rs: seq<Record>): Nesting
    decreases |rs|
  {
    if rs == [] then s else ReadAll(Read1(s, rs[0]), rs[1..])
  }

  lemma {:induction false} ReadConcat(s: Nesting, a: seq<Record>, b: seq<Record>)
    ensures ReadAll(s, a + b) == ReadAll(ReadAll(s, a), b)
    decreases |a|
  {
    if a == [] {
      assert a + b == b;
    } else {
      ReadConcat(Read1(s, a[0]), a[1..], b);
      assert (a + b)[1..] == a[1..] + b;
    }
  }

  lemma {:induction false} ReadBody(n: nat, t: Turn)
    ensures ReadAll(StepOpen(n), Body(t)) == StepOpen(n)
  {
    var a := if t.user.Some? then [UserRecord(t.user.value)] else [];
    var b := if t.assistant.Some? then [AssistantRecord(t.assistant.value)] else [];
    ReadConcat(StepOpen(n), a, b);
  }

  lemma {:induction false} ReadTwo(s: Nesting, a: Record, b: Record)
    ensures ReadAll(s, [a, b]) == Read1(Read1(s, a), b)
  {
    assert [a, b][1..] == [b];
    assert ReadAll(Read1(s, a), [b]) == ReadAll(Read1(Read1(s, a), b), [b][1..]);
  }

  lemma {:induction false} ReadTurn(t: Turn, n: nat)
    ensures ReadAll(Between(n), TurnRecords(t, n + 1)) == Between(n + 1)
  {
    var o, b, e := Opening(n + 1), Body(t), Ending(n + 1);
    ReadConcat(Between(n), o, b + e);
    ReadTwo(Between(n), TurnStart(Some(n + 1)), StepStart(n + 1, 1));
    ReadConcat(StepOpen(n + 1), b, e);
    ReadBody(n + 1, t);
    ReadTwo(StepOpen(n + 1), StepEnd(n + 1, 1), TurnEnd(Some(n + 1), true));
  }

  lemma {:induction false} ReadRegion(ts: seq<Turn>, n: nat)
    ensures ReadAll(Between(n), Region(ts, n + 1)) == Between(n + |ts|)
    decreases ts
  {
    if ts != [] {
      ReadConcat(Between(n), TurnRecords(ts[0], n + 1), Region(ts[1..], n + 2));
      ReadTurn(ts[0], n);
      ReadRegion(ts[1..], n + 1);
    }
  }

  lemma {:induction false} ReadHistories(n: nat, items: seq<int>)
    ensures ReadAll(Between(n), Histories(items)) == Between(n)
    decreases items
  {
    if items != [] { ReadHistories(n, items[1..]); }
  }

  /** Turns are numbered 1, 2, 3, …, each has exactly one step inside it, all messages are inside steps,
      everything else is between turns, and nothing is left open. */
  lemma {:induction false} ImportIsNested(ms: seq<Message>, items: seq<int>, digest: string)
    ensures ReadAll(Between(0), Imported(ms, items, digest)) == Between(|Turns(ms)|)
  {
    ReadConcat(Between(0), Region(Turns(ms), 1), Tail(items, digest));
    ReadRegion(Turns(ms), 0);
    var k := |Turns(ms)|;
    ReadConcat(Between(k), Histories(items), [ImportMarker(digest), EndSeed]);
    ReadHistories(k, items);
    ReadTwo(Between(k), ImportMarker(digest), EndSeed);
  }

  // ---------------------------------------------------------------------
  // Preview
  // ---------------------------------------------------------------------

  /** Only assistant messages carry a model. */
  datatype PreviewMessage = PreviewMessage(role: Role, text: string, model: Option<string>)

  function PreviewOf(r: Record): Option<PreviewMessage> {
    match r
    case UserMessage(text, _, _, _) => if text == "" then None else Some(PreviewMessage(User, text, None))
    case AssistantMessage(text, model) =>
      if text == "" then None else Some(PreviewMessage(Assistant, text, if model == "" then None else Some(model)))
    case _ => None
  }

  function Messages(rs: seq<Record>): seq<PreviewMessage> {
    if rs == [] then [] else (if PreviewOf(rs[0]).Some? then [PreviewOf(rs[0]).value] else []) + Messages(rs[1..])
  }

  function HistoryItems(rs: seq<Record>): seq<int> {
    if rs == [] then [] else (if rs[0].HistoryRecord? then [rs[0].item] else []) + HistoryItems(rs[1..])
  }

  /** `importMarkerOf`: the first import marker. */
  function MarkerOf(rs: seq<Record>): Option<string> {
    if rs == [] then None else if rs[0].ImportMarker? then Some(rs[0].digest) else MarkerOf(rs[1..])
  }

  /** Everything before the first marker with this digest. */
  function Archive(rs: seq<Record>, digest: string): seq<Record> {
    if rs == [] || rs[0] == ImportMarker(digest) then [] else [rs[0]] + Archive(rs[1..], digest)
  }

  function Preview(rs: seq<Record>, digest: string): (seq<PreviewMessage>, seq<int>) {
    (Messages(Archive(rs, digest)), HistoryItems(Archive(rs, digest)))
  }

  /** A user message names no model; a reply without one is shown as `unknown`. */
  function Shown(m: Message): PreviewMessage {
    if m.role == User then PreviewMessage(User, m.text, None)
    else if m.model == "" then PreviewMessage(Assistant, m.text, Some("unknown"))
    else PreviewMessage(Assistant, m.text, Some(m.model))
  }

  function AllShown(ms: seq<Message>): seq<PreviewMessage> {
    if ms == [] then [] else [Shown(ms[0])] + AllShown(ms[1..])
  }

  lemma {:induction false} MessagesConcat(a: seq<Record>, b: seq<Record>)
    ensures Messages(a + b) == Messages(a) + Messages(b)
  {
    if a == [] {
      assert a + b == b;
    } else {
      MessagesConcat(a[1..], b);
      assert (a + b)[1..] == a[1..] + b;
      var x := if PreviewOf(a[0]).Some? then [PreviewOf(a[0]).value] else [];
      assert x + (Messages(a[1..]) + Messages(b)) == (x + Messages(a[1..])) + Messages(b);
    }
  }

  lemma {:induction false} HistoryConcat(a: seq<Record>, b: seq<Record>)
    ensures HistoryItems(a + b) == HistoryItems(a) + HistoryItems(b)
  {
    if a == [] {
      assert a + b == b;
    } else {
      HistoryConcat(a[1..], b);
      assert (a + b)[1..] == a[1..] + b;
      var x := if a[0].HistoryRecord? then [a[0].item] else [];
      assert x + (HistoryItems(a[1..]) + HistoryItems(b)) == (x + HistoryItems(a[1..])) + HistoryItems(b);
    }
  }

  predicate TurnOk(t: Turn) {
    && (t.user.Some? ==> t.user.value.role == User && t.user.value.text != "")
    && (t.assistant.Some? ==> t.assistant.value.role == Assistant && t.assistant.value.text != "")
  }

  function ShownTurn(t: Turn): seq<PreviewMessage> {
    (if t.user.Some? then [Shown(t.user.value)] else [])
      + (if t.assistant.Some? then [Shown(t.assistant.value)] else [])
  }

  predicate Silent(r: Record) {
    PreviewOf(r).None? && !r.HistoryRecord?
  }

  lemma {:induction false} SilentPair(a: Record, b: Record)
    requires Silent(a) && Silent(b)
    ensures Messages([a, b]) == [] && HistoryItems([a, b]) == []
  {
    assert [a, b][1..] == [b];
    assert Messages([b]) == Messages([b][1..]) == [] && HistoryItems([b]) == HistoryItems([b][1..]) == [];
    assert [] + Messages([b]) == [] && [] + HistoryItems([b]) == [];
  }

  lemma {:induction false} MessagesOfOne(r: Record)
    ensures Messages([r]) == if PreviewOf(r).Some? then [PreviewOf(r).value] else []
    ensures HistoryItems([r]) == if r.HistoryRecord? then [r.item] else []
  {
    assert [r][1..] == [];
    var m := if PreviewOf(r).Some? then [PreviewOf(r).value] else [];
    assert m + Messages([]) == m;
  }

  lemma {:induction false} MessagesOfUser(u: Option<Message>)
    requires u.Some? ==> u.value.role == User && u.value.text != ""
    ensures var rs := if u.Some? then [UserRecord(u.value)] else [];
      Messages(rs) == (if u.Some? then [Shown(u.value)] else []) && HistoryItems(rs) == []
  {
    if u.Some? { MessagesOfOne(UserRecord(u.value)); }
  }

  lemma {:induction false} MessagesOfReply(a: Option<Message>)
    requires a.Some? ==> a.value.role == Assistant && a.value.text != ""
    ensures var rs := if a.Some? then [AssistantRecord(a.value)] else [];
      Messages(rs) == (if a.Some? then [Shown(a.value)] else []) && HistoryItems(rs) == []
  {
    if a.Some? { MessagesOfOne(AssistantRecord(a.value)); }
  }

  lemma {:induction false} MessagesOfBody(t: Turn)
    requires TurnOk(t)
    ensures Messages(Body(t)) == ShownTurn(t) && HistoryItems(Body(t)) == []
  {
    var u := if t.user.Some? then [UserRecord(t.user.value)] else [];
    var a := if t.assistant.Some? then [AssistantRecord(t.assistant.value)] else [];
    MessagesConcat(u, a);
    HistoryConcat(u, a);
    MessagesOfUser(t.user);
    MessagesOfReply(t.assistant);
  }

  lemma {:induction false} MessagesOfTurn(t: Turn, n: nat)
    requires TurnOk(t)
    ensures Messages(TurnRecords(t, n)) == ShownTurn(t) && HistoryItems(TurnRecords(t, n)) == []
  {
    var o, b, e := Opening(n), Body(t), Ending(n);
    MessagesConcat(o, b + e);
    MessagesConcat(b, e);
    HistoryConcat(o, b + e);
    HistoryConcat(b, e);
    SilentPair(o[0], o[1]);
    SilentPair(e[0], e[1]);
    MessagesOfBody(t);
  }

  lemma {:induction false} TwoShown(ms: seq<Message>)
    requires |ms| >= 2
    ensures AllShown(ms) == [Shown(ms[0]), Shown(ms[1])] + AllShown(ms[2..])
  {
    assert ms[1..][1..] == ms[2..];
    assert AllShown(ms) == [Shown(ms[0])] + AllShown(ms[1..]);
    assert AllShown(ms[1..]) == [Shown(ms[1])] + AllShown(ms[2..]);
  }

  /** The first turn takes the first messages, and the other turns the rest. */
  lemma {:induction false} FirstTurn(ms: seq<Message>) returns (t: Turn, rest: seq<Message>)
    requires ms != []
    ensures Turns(ms) == [t] + Turns(rest) && |rest| < |ms| && rest == ms[|ms| - |rest|..]
    ensures AllNonEmpty(ms) ==> TurnOk(t)
    ensures AllShown(ms) == ShownTurn(t) + AllShown(rest)
  {
    if ms[0].role == User && |ms| >= 2 && ms[1].role == Assistant {
      t, rest := Turn(Some(ms[0]), Some(ms[1])), ms[2..];
      TwoShown(ms);
      assert ShownTurn(t) == [Shown(ms[0]), Shown(ms[1])];
    } else {
      t, rest := if ms[0].role == User then Turn(Some(ms[0]), None) else Turn(None, Some(ms[0])), ms[1..];
      assert ShownTurn(t) == [Shown(ms[0])];
    }
  }

  lemma {:induction false} MessagesOfRegion(ms: seq<Message>, n: nat)
    requires AllNonEmpty(ms)
    ensures Messages(Region(Turns(ms), n)) == AllShown(ms)
    ensures HistoryItems(Region(Turns(ms), n)) == []
    decreases |ms|
  {
    if ms != [] {
      var t, rest := FirstTurn(ms);
      MessagesOfTurn(t, n);
      assert Turns(ms)[1..] == Turns(rest);
      MessagesConcat(TurnRecords(t, n), Region(Turns(rest), n + 1));
      HistoryConcat(TurnRecords(t, n), Region(Turns(rest), n + 1));
      MessagesOfRegion(rest, n + 1);
    }
  }

  lemma {:induction false} HistoriesRead(items: seq<int>)
    ensures Messages(Histories(items)) == [] && HistoryItems(Histories(items)) == items
  {
    if items != [] { HistoriesRead(items[1..]); }
  }

  predicate Unmarked(rs: seq<Record>) {
    forall i :: 0 <= i < |rs| ==> !rs[i].ImportMarker?
  }

  lemma {:induction false} RegionUnmarked(ts: seq<Turn>, n: nat)
    ensures Unmarked(Region(ts, n))
  {
    if ts != [] { RegionUnmarked(ts[1..], n + 1); }
  }

  lemma {:induction false} HistoriesUnmarked(items: seq<int>)
    ensures Unmarked(Histories(items))
  {
    if items != [] { HistoriesUnmarked(items[1..]); }
  }

  lemma {:induction false} ArchiveStops(a: seq<Record>, digest: string, more: seq<Record>)
    requires Unmarked(a)
    ensures Archive(a + [ImportMarker(digest)] + more, digest) == a
    ensures MarkerOf(a + [ImportMarker(digest)] + more) == Some(digest)
  {
    var whole := a + [ImportMarker(digest)] + more;
    if a != [] {
      ArchiveStops(a[1..], digest, more);
      assert whole[1..] == a[1..] + [ImportMarker(digest)] + more;
    }
  }

  /** Round trip: whatever is appended to the imported session later, the preview shows exactly the
      messages and the history that were imported, and a second import finds its marker. */
  lemma {:induction false} PreviewRecovers(ms: seq<Message>, items: seq<int>, digest: string, later: seq<Record>)
    requires AllNonEmpty(ms)
    ensures Preview(Imported(ms, items, digest) + later, digest) == (AllShown(ms), items)
    ensures MarkerOf(Imported(ms, items, digest) + later) == Some(digest)
  {
    var region, hs := Region(Turns(ms), 1), Histories(items);
    RegionUnmarked(Turns(ms), 1);
    HistoriesUnmarked(items);
    ArchiveStops(region + hs, digest, [EndSeed] + later);
    assert Imported(ms, items, digest) + later == (region + hs) + [ImportMarker(digest)] + ([EndSeed] + later);
    MessagesConcat(region, hs);
    HistoryConcat(region, hs);
    MessagesOfRegion(ms, 1);
    HistoriesRead(items);
    assert AllShown(ms) + [] == AllShown(ms) && [] + items == items;
  }

  // ---------------------------------------------------------------------
  // Continuation
  // ---------------------------------------------------------------------

  datatype Result<T> = Ok(value: T) | Unavailable

  /** One past the last `turn/end`, or 0. */
  function LastEnd(rs: seq<Record>): (n: nat)
    ensures n <= |rs|
    ensures n > 0 ==> rs[n - 1].TurnEnd?
    ensures forall i :: n <= i < |rs| ==> !rs[i].TurnEnd?
  {
    if rs == [] then 0 else if rs[|rs| - 1].TurnEnd? then |rs| else LastEnd(rs[..|rs| - 1])
  }

  function ContinuationSeed(rs: seq<Record>): Result<seq<Record>> {
    if LastEnd(rs) == 0 then Unavailable else Ok(rs[..LastEnd(rs)])
  }

  lemma {:induction false} RegionEnds(ts: seq<Turn>, n: nat)
    requires ts != []
    ensures var r := Region(ts, n); r != [] && r[|r| - 1].TurnEnd?
  {
    var head, rest := TurnRecords(ts[0], n), Region(ts[1..], n + 1);
    assert Region(ts, n) == head + rest;
    if |ts| > 1 {
      RegionEnds(ts[1..], n + 1);
    } else {
      assert rest == [] && head + rest == head;
    }
  }

  lemma {:induction false} HistoriesHaveNoEnd(items: seq<int>)
    ensures forall i :: 0 <= i < |Histories(items)| ==> Histories(items)[i].HistoryRecord?
  {
    if items != [] { HistoriesHaveNoEnd(items[1..]); }
  }

  /** The seed of a continuation is exactly the turns: every message, balanced, and neither history nor
      the import marker. Without messages there is nothing to continue. */
  lemma {:induction false} SeedIsTurns(ms: seq<Message>, items: seq<int>, digest: string)
    ensures ContinuationSeed(Imported(ms, items, digest)) ==
      if ms == [] then Unavailable else Ok(Region(Turns(ms), 1))
  {
    var rs, region := Imported(ms, items, digest), Region(Turns(ms), 1);
    HistoriesHaveNoEnd(items);
    if ms != [] { RegionEnds(Turns(ms), 1); assert rs[|region| - 1] == region[|region| - 1]; }
    forall i | |region| <= i < |rs| ensures !rs[i].TurnEnd? {
      assert rs[i] == Tail(items, digest)[i - |region|];
    }
    assert LastEnd(rs) == |region|;
    assert rs[..|region|] == region;
  }

  /** So the seed of any non-empty import shows every message, is balanced, and holds no import record. */
  lemma {:induction false} SeedKeepsMessages(ms: seq<Message>, items: seq<int>, digest: string)
    requires ms != [] && AllNonEmpty(ms)
    ensures var seed := ContinuationSeed(Imported(ms, items, digest));
      && seed.Ok?
      && Messages(seed.value) == AllShown(ms)
      && HistoryItems(seed.value) == [] && MarkerOf(seed.value) == None
      && ReadAll(Between(0), seed.value) == Between(|Turns(ms)|)
  {
    SeedIsTurns(ms, items, digest);
    MessagesOfRegion(ms, 1);
    RegionUnmarked(Turns(ms), 1);
    NoMarker(Region(Turns(ms), 1));
    ReadRegion(Turns(ms), 0);
  }

  lemma {:induction false} NoMarker(rs: seq<Record>)
    requires Unmarked(rs)
    ensures MarkerOf(rs) == None
  {
    if rs != [] { NoMarker(rs[1..]); }
  }
}
