/**
 The executor's event stream: `writeSseEvent` prints frames, `streamTaskEvents`
 parses them incrementally (WHATWG HTML Living Standard, section 9.2). A JSON
 payload is its text; which texts are JSON is a parameter.
 */
module SseWire {
  import opened Options
  import opened LineFraming
  import opened Decimals

  datatype Frame = Frame(number: Option<nat>, kind: string, data: string)

  /** `json`: the texts `JSON.parse` accepts. `number`: what `Number` gives for a text that is not a plain
      run of digits, where that is a safe integer. */
  datatype Host = Host(json: string -> bool, number: string -> Option<nat>)

  /** `Number(id)` when it is a safe integer. */
  function NumberOf(s: string, host: Host): Option<nat> {
    if s != "" && AllDigits(s) then (if ValueOf(s) <= MAX_SAFE_INTEGER then Some(ValueOf(s)) else None)
    else host.number(s)
  }

  // ---------------------------------------------------------------------
  // The parser, line by line
  // ---------------------------------------------------------------------

  /** The local variables of `streamTaskEvents`, and what was yielded. `failed`: malformed JSON was thrown. */
  datatype Parser = Parser(id: Option<string>, kind: string, data: seq<string>, frames: seq<Frame>, failed: bool)

  function Start(frames: seq<Frame>): Parser {
    Parser(None, "message", [], frames, false)
  }

  function Join(lines: seq<string>): string {
    if lines == [] then "" else if |lines| == 1 then lines[0] else lines[0] + "\n" + Join(lines[1..])
  }

  /** `parseEvent`, and the `yield` behind it. */
  function Dispatch(p: Parser, host: Host): Parser {
    if p.data == [] then Start(p.frames)
    else if !host.json(Join(p.data)) then p.(failed := true)
    else Start(p.frames + [Frame(if p.id.None? then None else NumberOf(p.id.value, host), p.kind, Join(p.data))])
  }

  function StripSpace(v: string): string {
    if v != "" && v[0] == ' ' then v[1..] else v
  }

  function SetField(p: Parser, field: string, value: string): Parser {
    if field == "id" && !Has(value, '\0') then p.(id := Some(value))
    else if field == "event" then p.(kind := value)
    else if field == "data" then p.(data := p.data + [value])
    else p
  }

  function TakeLine(p: Parser, raw: string, host: Host): Parser {
    var line := Chomp(raw);
    if p.failed then p
    else if line == "" then Dispatch(p, host)
    else if line[0] == ':' then p
    else
      var colon := IndexOf(line, ':');
      if colon < 0 then SetField(p, line, "") else SetField(p, line[..colon], StripSpace(line[colon + 1..]))
  }

  /** The end of the stream: an unterminated line, then the last event. */
  function Finish(p: Parser, rest: string, host: Host): Parser {
    if p.failed then p
    else if StartsWith(rest, "data:") then Dispatch(p.(data := p.data + [StripSpace(rest[5..])]), host)
    else if StartsWith(rest, "event:") then Dispatch(p.(kind := StripSpace(rest[6..])), host)
    else if StartsWith(rest, "id:") then Dispatch(p.(id := Some(StripSpace(rest[3..]))), host)
    else Dispatch(p, host)
  }

  function Lexer(host: Host): Machine<Parser> {
    Machine((p: Parser, line: string) => TakeLine(p, line, host), (p: Parser) => p.failed)
  }

  /** Parsing a whole text at once, one line after the other. */
  function Parse(p: Parser, text: string, host: Host): Parser {
    var end := Lines(p, text, Lexer(host));
    Finish(end.0, end.1, host)
  }

  /** The parser gives the same frames, and the same failure, however the text is cut into chunks. */
  method StreamTaskEvents(chunks: seq<string>, host: Host) returns (frames: seq<Frame>, ok: bool)
    ensures var whole := Parse(Start([]), Concat(chunks), host); frames == whole.frames && ok == !whole.failed
  {
    var p, buffer := Feed(Start([]), chunks, Lexer(host));
    RunIs(Start([]), "", chunks, Lexer(host));
    assert "" + Concat(chunks) == Concat(chunks);
    p := Finish(p, buffer, host);
    return p.frames, !p.failed;
  }

  // ---------------------------------------------------------------------
  // Printing and round trip
  // ---------------------------------------------------------------------

  datatype Item = Send(frame: Frame) | KeepAlive

  function Field(name: string, value: string): string {
    name + ": " + value
  }

  /** The lines one frame is printed as; the blank line ends it. */
  function FrameLines(f: Frame): seq<string> {
    (if f.number.Some? then [Field("id", Decimal(f.number.value))] else []) +
    [Field("event", f.kind), Field("data", f.data), ""]
  }

  function ItemLines(item: Item): seq<string> {
    if item.Send? then FrameLines(item.frame) else [": keep-alive", ""]
  }

  function Print(items: seq<Item>): string {
    if items == [] then "" else PrintLines(ItemLines(items[0])) + Print(items[1..])
  }

  /** A text that survives as the value of one line. */
  predicate OneLine(t: string) {
    !Has(t, '\n') && (t != "" ==> t[|t| - 1] != '\r')
  }

  /** What the parser makes of a frame: an unsafe sequence number is dropped, and so is one carriage
      return at the end of the type. */
  function Received(f: Frame): Frame {
    Frame(if f.number.Some? && f.number.value > MAX_SAFE_INTEGER then None else f.number, Chomp(f.kind), f.data)
  }

  function AllReceived(items: seq<Item>): seq<Frame> {
    if items == [] then [] else Yield(items[0]) + AllReceived(items[1..])
  }

  /** The frames as they were sent. */
  function Sent(items: seq<Item>): seq<Frame> {
    if items == [] then [] else (if items[0].Send? then [items[0].frame] else []) + Sent(items[1..])
  }

  /** What `JSON.stringify` guarantees of the payload. */
  ghost predicate AllJson(items: seq<Item>, host: Host) {
    forall i :: 0 <= i < |items| && items[i].Send? ==> OneLine(items[i].frame.data) && host.json(items[i].frame.data)
  }

  predicate Unbroken(item: Item) {
    item.Send? ==> !Has(item.frame.kind, '\n')
  }

  /** The type is one line and the sequence number, if any, is a safe integer. */
  predicate Intact(item: Item) {
    item.Send? ==> OneLine(item.frame.kind) && (item.frame.number.Some? ==> item.frame.number.value <= MAX_SAFE_INTEGER)
  }

  ghost predicate AllUnbroken(items: seq<Item>) {
    forall i :: 0 <= i < |items| ==> Unbroken(items[i])
  }

  ghost predicate AllIntact(items: seq<Item>) {
    forall i :: 0 <= i < |items| ==> Intact(items[i])
  }

  function TakeAll(p: Parser, lines: seq<string>, host: Host): Parser {
    StepAll(p, lines, Lexer(host))
  }

  lemma {:induction false} FieldHasNoBreak(field: string, value: string)
    requires !Has(field, '\n') && !Has(value, '\n')
    ensures !Has(Field(field, value), '\n')
  {
    var line := Field(field, value);
    forall i | 0 <= i < |line| ensures line[i] != '\n' {
      if i < |field| { assert line[i] == field[i]; }
      else if i >= |field| + 2 { assert line[i] == value[i - |field| - 2]; }
    }
  }

  lemma {:induction false} FieldLine(p: Parser, field: string, value: string, host: Host)
    requires !p.failed && field != "" && !Has(field, ':')
    ensures TakeLine(p, Field(field, value), host) == SetField(p, field, Chomp(value))
  {
    var line := Field(field, value);
    assert line[|line| - 1] == if value == "" then ' ' else value[|value| - 1];
    assert Chomp(line) == Field(field, Chomp(value));
    FirstIs(field, " " + Chomp(value), ':');
    assert Field(field, Chomp(value)) == field + [':'] + (" " + Chomp(value));
    assert Field(field, Chomp(value))[0] == field[0];
    assert StripSpace(" " + Chomp(value)) == Chomp(value);
  }

  lemma {:induction false} DigitsAreOneLine(n: nat, host: Host)
    ensures OneLine(Decimal(n)) && !Has(Decimal(n), '\0')
    ensures NumberOf(Decimal(n), host) == if n <= MAX_SAFE_INTEGER then Some(n) else None
  {
    DecimalReadsBack(n);
  }

  lemma {:induction false} TakeThree(p: Parser, a: string, b: string, c: string, host: Host)
    requires !p.failed && !TakeLine(p, a, host).failed && !TakeLine(TakeLine(p, a, host), b, host).failed
    ensures TakeAll(p, [a, b, c], host) == TakeLine(TakeLine(TakeLine(p, a, host), b, host), c, host)
  {
    var p1 := TakeLine(p, a, host);
    var p2 := TakeLine(p1, b, host);
    assert [a, b, c][1..] == [b, c] && [b, c][1..] == [c] && [c][1..] == [];
    assert TakeAll(p, [a, b, c], host) == TakeAll(p1, [b, c], host);
    assert TakeAll(p1, [b, c], host) == TakeAll(p2, [c], host);
    assert TakeAll(p2, [c], host) == TakeAll(TakeLine(p2, c, host), [], host);
  }

  /** The event and data lines of a frame, and the blank line. */
  lemma {:induction false} TakeBody(p: Parser, f: Frame, host: Host)
    requires !p.failed && p.data == []
    ensures TakeAll(p, [Field("event", f.kind), Field("data", f.data), ""], host)
      == Dispatch(p.(kind := Chomp(f.kind), data := [Chomp(f.data)]), host)
  {
    var p1 := p.(kind := Chomp(f.kind));
    FieldLine(p, "event", f.kind, host);
    FieldLine(p1, "data", f.data, host);
    assert p.data + [Chomp(f.data)] == [Chomp(f.data)];
    TakeThree(p, Field("event", f.kind), Field("data", f.data), "", host);
  }

  lemma {:induction false} TakeFrame(frames: seq<Frame>, f: Frame, host: Host)
    requires OneLine(f.data) && host.json(f.data)
    ensures TakeAll(Start(frames), FrameLines(f), host) == Start(frames + [Received(f)])
  {
    var p := Start(frames);
    var body := [Field("event", f.kind), Field("data", f.data), ""];
    if f.number.Some? {
      var n := f.number.value;
      DigitsAreOneLine(n, host);
      FieldLine(p, "id", Decimal(n), host);
      assert FrameLines(f)[0] == Field("id", Decimal(n)) && FrameLines(f)[1..] == body;
      TakeBody(p.(id := Some(Decimal(n))), f, host);
    } else {
      assert FrameLines(f) == body;
      TakeBody(p, f, host);
    }
  }

  lemma {:induction false} FrameHasNoBreaks(f: Frame)
    requires !Has(f.kind, '\n') && !Has(f.data, '\n')
    ensures NoBreaks(FrameLines(f))
  {
    FieldHasNoBreak("event", f.kind);
    FieldHasNoBreak("data", f.data);
    if f.number.Some? {
      DecimalReadsBack(f.number.value);
      FieldHasNoBreak("id", Decimal(f.number.value));
    }
  }

  lemma {:induction false} TakeKeepAlive(frames: seq<Frame>, host: Host)
    ensures TakeAll(Start(frames), [": keep-alive", ""], host) == Start(frames)
    ensures NoBreaks([": keep-alive", ""])
  {
    var comment := ": keep-alive";
    assert comment[0] == ':' && Chomp(comment) == comment;
    assert TakeLine(Start(frames), comment, host) == Start(frames);
    assert [comment, ""][1..] == [""];
    assert TakeAll(Start(frames), [""], host) == TakeAll(TakeLine(Start(frames), "", host), [""][1..], host);
  }

  lemma {:induction false} TakeItem(frames: seq<Frame>, item: Item, rest: string, host: Host)
    requires Unbroken(item) && (item.Send? ==> OneLine(item.frame.data) && host.json(item.frame.data))
    ensures Lines(Start(frames), PrintLines(ItemLines(item)) + rest, Lexer(host))
      == Lines(Start(frames + Yield(item)), rest, Lexer(host))
  {
    if item.Send? {
      FrameHasNoBreaks(item.frame);
      TakeFrame(frames, item.frame, host);
    } else {
      TakeKeepAlive(frames, host);
      assert frames + [] == frames;
    }
    LinesPrinted(Start(frames), ItemLines(item), rest, Lexer(host));
  }

  lemma {:induction false} NothingLeft(frames: seq<Frame>, host: Host)
    ensures Lines(Start(frames), "", Lexer(host)) == (Start(frames), "")
    ensures Finish(Start(frames), "", host) == Start(frames)
  {
    assert IndexOf("", '\n') < 0;
  }

  function Yield(item: Item): seq<Frame> {
    if item.Send? then [Received(item.frame)] else []
  }

  lemma {:induction false} PrintHead(frames: seq<Frame>, items: seq<Item>, host: Host)
    requires items != [] && AllJson(items, host) && AllUnbroken(items)
    ensures AllJson(items[1..], host) && AllUnbroken(items[1..])
    ensures Lines(Start(frames), Print(items), Lexer(host))
      == Lines(Start(frames + Yield(items[0])), Print(items[1..]), Lexer(host))
  {
    TakeItem(frames, items[0], Print(items[1..]), host);
  }

  lemma {:induction false} ParsePrint(frames: seq<Frame>, items: seq<Item>, host: Host)
    requires AllJson(items, host) && AllUnbroken(items)
    ensures Lines(Start(frames), Print(items), Lexer(host)) == (Start(frames + AllReceived(items)), "")
    decreases |items|
  {
    if items == [] {
      NothingLeft(frames, host);
      assert frames + [] == frames;
    } else {
      PrintHead(frames, items, host);
      ParsePrint(frames + Yield(items[0]), items[1..], host);
      Regroup(frames, Yield(items[0]), AllReceived(items[1..]));
    }
  }

  lemma {:induction false} Regroup(a: seq<Frame>, b: seq<Frame>, c: seq<Frame>)
    ensures (a + b) + c == a + (b + c)
  {
  }

  lemma {:induction false} ItemIff(item: Item, a: seq<Frame>, b: seq<Frame>)
    requires Unbroken(item)
    ensures Yield(item) + a == (if item.Send? then [item.frame] else []) + b <==> Intact(item) && a == b
  {
    if item.Send? {
      SameHead(Received(item.frame), item.frame, a, b);
    } else {
      assert [] + a == a && [] + b == b;
    }
  }

  lemma {:induction false} ReceivedIff(items: seq<Item>)
    requires AllUnbroken(items)
    ensures AllReceived(items) == Sent(items) <==> AllIntact(items)
  {
    if items != [] {
      ReceivedIff(items[1..]);
      HeadIntact(items);
      ItemIff(items[0], AllReceived(items[1..]), Sent(items[1..]));
    }
  }

  lemma {:induction false} HeadIntact(items: seq<Item>)
    requires items != []
    ensures AllIntact(items) <==> Intact(items[0]) && AllIntact(items[1..])
  {
    if Intact(items[0]) && AllIntact(items[1..]) {
      forall i | 0 <= i < |items| ensures Intact(items[i]) { if i > 0 { assert items[i] == items[1..][i - 1]; } }
    }
  }

  lemma {:induction false} SameHead(f: Frame, g: Frame, a: seq<Frame>, b: seq<Frame>)
    ensures [f] + a == [g] + b <==> f == g && a == b
  {
    assert ([f] + a)[0] == f && ([f] + a)[1..] == a;
    assert ([g] + b)[0] == g && ([g] + b)[1..] == b;
  }

  /** For every sequence of frames whose types have no line break, with keep-alives between them, and every
      division of the printed text into chunks, the client returns the frames; and exactly those that were
      sent if types and numbers are intact. */
  method RoundTrip(items: seq<Item>, chunks: seq<string>, host: Host) returns (frames: seq<Frame>, ok: bool)
    requires AllJson(items, host) && AllUnbroken(items) && Concat(chunks) == Print(items)
    ensures ok && frames == AllReceived(items)
    ensures frames == Sent(items) <==> AllIntact(items)
  {
    ParsePrint([], items, host);
    NothingLeft(AllReceived(items), host);
    assert [] + AllReceived(items) == AllReceived(items);
    ReceivedIff(items);
    frames, ok := StreamTaskEvents(chunks, host);
  }

  // ---------------------------------------------------------------------
  // No other type survives
  // ---------------------------------------------------------------------

  ghost predicate KindsOk(p: Parser) {
    !Has(p.kind, '\n') && forall i :: 0 <= i < |p.frames| ==> !Has(p.frames[i].kind, '\n')
  }

  lemma {:induction false} LineKindsOk(p: Parser, line: string, host: Host)
    requires KindsOk(p) && !Has(line, '\n')
    ensures KindsOk(TakeLine(p, line, host))
  {
    DispatchKindsOk(p, host);
    var l := Chomp(line);
    var colon := IndexOf(l, ':');
    if colon < 0 { FieldKindsOk(p, l, ""); } else { FieldKindsOk(p, l[..colon], StripSpace(l[colon + 1..])); }
  }

  lemma {:induction false} FieldKindsOk(p: Parser, field: string, value: string)
    requires KindsOk(p) && !Has(value, '\n')
    ensures KindsOk(SetField(p, field, value))
  {
  }

  lemma {:induction false} DispatchKindsOk(p: Parser, host: Host)
    requires KindsOk(p)
    ensures KindsOk(Dispatch(p, host))
  {
  }

  lemma {:induction false} FinishKindsOk(p: Parser, rest: string, host: Host)
    requires KindsOk(p) && !Has(rest, '\n')
    ensures KindsOk(Finish(p, rest, host))
  {
    DispatchKindsOk(p, host);
    if |rest| >= 3 { DispatchKindsOk(p.(id := Some(StripSpace(rest[3..]))), host); }
    if |rest| >= 5 { DispatchKindsOk(p.(data := p.data + [StripSpace(rest[5..])]), host); }
    if |rest| >= 6 {
      assert !Has(StripSpace(rest[6..]), '\n');
      DispatchKindsOk(p.(kind := StripSpace(rest[6..])), host);
    }
  }

  lemma {:induction false} FirstLineKindsOk(p: Parser, text: string, host: Host)
    requires KindsOk(p) && IndexOf(text, '\n') >= 0
    ensures KindsOk(TakeLine(p, text[..IndexOf(text, '\n')], host))
  {
    LineKindsOk(p, text[..IndexOf(text, '\n')], host);
  }

  lemma {:induction false} LinesKindsOk(p: Parser, text: string, host: Host)
    requires KindsOk(p)
    ensures KindsOk(Lines(p, text, Lexer(host)).0)
    decreases |text|
  {
    var k := IndexOf(text, '\n');
    if k >= 0 && !p.failed {
      FirstLineKindsOk(p, text, host);
      LinesKindsOk(TakeLine(p, text[..k], host), text[k + 1..], host);
    }
  }

  lemma {:induction false} ParsedKindsOk(p: Parser, text: string, host: Host)
    requires KindsOk(p)
    ensures KindsOk(Parse(p, text, host))
  {
    LinesKindsOk(p, text, host);
    LinesRest(p, text, Lexer(host));
    var end := Lines(p, text, Lexer(host));
    if !end.0.failed { FinishKindsOk(end.0, end.1, host); }
  }

  lemma {:induction false} SentAt(items: seq<Item>, i: nat)
    requires i < |items| && items[i].Send?
    ensures items[i].frame in Sent(items)
  {
    if i > 0 { SentAt(items[1..], i - 1); }
  }

  /** The printer does not escape. For every sequence of numbered and unnumbered frames with JSON payloads:
      exactly the frames that were sent come back iff every type is one line that does not end in a
      carriage return and every number is a safe integer. */
  lemma {:induction false} SurvivesIff(items: seq<Item>, host: Host)
    requires AllJson(items, host)
    ensures Parse(Start([]), Print(items), host) == Start(Sent(items)) <==> AllIntact(items)
  {
    if AllUnbroken(items) {
      ParsePrint([], items, host);
      NothingLeft(AllReceived(items), host);
      assert [] + AllReceived(items) == AllReceived(items);
      ReceivedIff(items);
      assert Start(Sent(items)).frames == Sent(items) && Start(AllReceived(items)).frames == AllReceived(items);
    } else {
      var i :| 0 <= i < |items| && !Unbroken(items[i]);
      ParsedKindsOk(Start([]), Print(items), host);
      SentAt(items, i);
      assert Start(Sent(items)).frames == Sent(items);
      assert !Intact(items[i]);
    }
  }

  /** One frame, with or without a number. */
  lemma {:induction false} FrameSurvivesIff(f: Frame, host: Host)
    requires OneLine(f.data) && host.json(f.data)
    ensures Parse(Start([]), PrintLines(FrameLines(f)), host) == Start([f]) <==> Intact(Send(f))
  {
    SurvivesIff([Send(f)], host);
    assert Print([Send(f)]) == PrintLines(FrameLines(f)) + Print([Send(f)][1..]) == PrintLines(FrameLines(f));
    assert Sent([Send(f)]) == [f] + Sent([Send(f)][1..]) == [f];
    HeadIntact([Send(f)]);
  }

  /** A numbered frame whose type contains a line break does not come back, whatever its payload. */
  lemma {:induction false} LineBreakLost(n: nat, data: string, host: Host)
    requires OneLine(data) && host.json(data)
    ensures var f := Frame(Some(n), "a\nb", data); Parse(Start([]), PrintLines(FrameLines(f)), host) != Start([f])
  {
    var f := Frame(Some(n), "a\nb", data);
    FrameSurvivesIff(f, host);
    assert f.kind[1] == '\n';
  }
}
