/**
 What a block of field lines means, whatever its order and spacing: the rules of
 the event stream format (WHATWG HTML Living Standard, section 9.2.6), and what
 becomes of a block that the stream ends in.
 */
module SseBlocks {
  import opened Options
  import opened LineFraming
  import opened SseWire

  // ---------------------------------------------------------------------
  // Field lines
  // ---------------------------------------------------------------------

  /** `Spaced` and `Tight`: a value with and without one space in front. `Bare`: a name alone. */
  datatype Style = Spaced | Tight | Bare

  /** A line of a block: a field in one of its spellings, or a comment. */
  datatype Entry = Pair(name: string, value: string, style: Style, cr: bool) | Comment(text: string)

  predicate EntryOk(e: Entry) {
    match e
    case Pair(name, value, style, cr) =>
      && name != "" && !Has(name, ':') && !Has(name, '\n') && !Has(value, '\n')
      && (!cr ==> (value != "" ==> value[|value| - 1] != '\r') && name[|name| - 1] != '\r')
      && (style == Tight && value != "" ==> value[0] != ' ')
      && (style == Bare ==> value == "")
    case Comment(text) => true
  }

  function Spelled(e: Entry): string {
    match e
    case Pair(name, value, style, cr) =>
      (match style
       case Spaced => name + ": " + value
       case Tight => name + ":" + value
       case Bare => name) + (if cr then "\r" else "")
    case Comment(text) => ":" + text
  }

  function AllSpelled(es: seq<Entry>): seq<string> {
    if es == [] then [] else [Spelled(es[0])] + AllSpelled(es[1..])
  }

  // ---------------------------------------------------------------------
  // Meaning
  // ---------------------------------------------------------------------

  /** The values of the fields with this name, in order. */
  function Values(es: seq<Entry>, name: string): seq<string> {
    if es == [] then []
    else (if es[0].Pair? && es[0].name == name then [es[0].value] else []) + Values(es[1..], name)
  }

  function WithoutNul(vs: seq<string>): seq<string> {
    if vs == [] then [] else (if Has(vs[0], '\0') then [] else [vs[0]]) + WithoutNul(vs[1..])
  }

  function LastOr(vs: seq<string>, otherwise: string): string {
    if vs == [] then otherwise else vs[|vs| - 1]
  }

  function LastOf(vs: seq<string>, otherwise: Option<string>): Option<string> {
    if vs == [] then otherwise else Some(vs[|vs| - 1])
  }

  /** The parser behind a block with these ids, types and data: the last id without a NUL, the last type, all
      the data. */
  function Filled(p: Parser, ids: seq<string>, kinds: seq<string>, data: seq<string>): Parser {
    Parser(LastOf(WithoutNul(ids), p.id), LastOr(kinds, p.kind), p.data + data, p.frames, p.failed)
  }

  function Meant(p: Parser, es: seq<Entry>): Parser {
    Filled(p, Values(es, "id"), Values(es, "event"), Values(es, "data"))
  }

  lemma {:induction false} StripsCr(line: string)
    ensures Chomp(line + "\r") == line
  {
  }

  /** A line without a carriage return that belongs to its ending. */
  predicate Chomped(line: string) {
    Chomp(line) == line
  }

  lemma {:induction false} BareLine(p: Parser, line: string, name: string, host: Host)
    requires name != "" && !Has(name, ':') && !p.failed && Chomp(line) == name
    ensures TakeLine(p, line, host) == SetField(p, name, "")
  {
    assert name[0] != ':' && IndexOf(name, ':') < 0;
  }

  lemma {:induction false} ColonLine(p: Parser, line: string, name: string, rest: string, host: Host)
    requires name != "" && !Has(name, ':') && !p.failed && Chomp(line) == name + [':'] + rest
    ensures TakeLine(p, line, host) == SetField(p, name, StripSpace(rest))
  {
    FirstIs(name, rest, ':');
    assert Chomp(line)[0] == name[0];
  }

  /** The spelling of a field without a carriage return. */
  function Plain(name: string, value: string, style: Style): string {
    match style
    case Spaced => name + ": " + value
    case Tight => name + ":" + value
    case Bare => name
  }

  lemma {:induction false} PairLine(p: Parser, line: string, name: string, value: string, style: Style, host: Host)
    requires EntryOk(Pair(name, value, style, true)) && !p.failed && Chomp(line) == Plain(name, value, style)
    ensures TakeLine(p, line, host) == SetField(p, name, value)
  {
    match style
    case Spaced =>
      assert name + ": " + value == name + [':'] + (" " + value);
      ColonLine(p, line, name, " " + value, host);
    case Tight =>
      ColonLine(p, line, name, value, host);
    case Bare =>
      BareLine(p, line, name, host);
  }

  lemma {:induction false} EntryChomps(e: Entry)
    requires EntryOk(e) && e.Pair?
    ensures Chomp(Spelled(e)) == Plain(e.name, e.value, e.style)
  {
    var plain := Plain(e.name, e.value, e.style);
    if e.cr {
      assert Spelled(e) == plain + "\r";
      StripsCr(plain);
    } else {
      assert Spelled(e) == plain;
      assert plain[|plain| - 1] != '\r';
    }
  }

  lemma {:induction false} EntryTaken(p: Parser, e: Entry, host: Host)
    requires EntryOk(e) && !p.failed
    ensures TakeLine(p, Spelled(e), host) == if e.Pair? then SetField(p, e.name, e.value) else p
  {
    if e.Pair? {
      EntryChomps(e);
      PairLine(p, Spelled(e), e.name, e.value, e.style, host);
    } else {
      CommentTaken(p, e.text, host);
    }
  }

  lemma {:induction false} CommentTaken(p: Parser, text: string, host: Host)
    requires !p.failed
    ensures TakeLine(p, ":" + text, host) == p
  {
    var line := ":" + text;
    assert line[0] == ':';
    assert Chomp(line) != "" && Chomp(line)[0] == ':';
  }

  lemma {:induction false} LastFirst(v: string, vs: seq<string>)
    ensures forall o :: LastOf([v] + vs, o) == LastOf(vs, Some(v))
    ensures forall o :: LastOr([v] + vs, o) == LastOr(vs, v)
  {
  }

  lemma {:induction false} ValuesFirst(es: seq<Entry>, name: string)
    requires es != []
    ensures Values(es, name) ==
      if es[0].Pair? && es[0].name == name then [es[0].value] + Values(es[1..], name) else Values(es[1..], name)
  {
  }

  lemma {:induction false} IdFirst(p: Parser, v: string, vs: seq<string>)
    ensures LastOf(WithoutNul([v] + vs), p.id) == LastOf(WithoutNul(vs), SetField(p, "id", v).id)
  {
    assert ([v] + vs)[1..] == vs;
    LastFirst(v, WithoutNul(vs));
    assert [] + WithoutNul(vs) == WithoutNul(vs);
  }

  lemma {:induction false} FilledFirst(p: Parser, v: string, ids: seq<string>, kinds: seq<string>, data: seq<string>)
    ensures Filled(p, [v] + ids, kinds, data) == Filled(SetField(p, "id", v), ids, kinds, data)
    ensures Filled(p, ids, [v] + kinds, data) == Filled(SetField(p, "event", v), ids, kinds, data)
    ensures Filled(p, ids, kinds, [v] + data) == Filled(SetField(p, "data", v), ids, kinds, data)
  {
    IdFirst(p, v, ids);
    LastFirst(v, kinds);
    assert p.data + ([v] + data) == (p.data + [v]) + data;
  }

  lemma {:induction false} PairFirst(p: Parser, es: seq<Entry>)
    requires es != [] && es[0].Pair?
    ensures Meant(p, es) == Meant(SetField(p, es[0].name, es[0].value), es[1..])
  {
    var name, v := es[0].name, es[0].value;
    var ids, kinds, data := Values(es[1..], "id"), Values(es[1..], "event"), Values(es[1..], "data");
    FilledFirst(p, v, ids, kinds, data);
    ValuesFirst(es, "id");
    ValuesFirst(es, "event");
    ValuesFirst(es, "data");
    assert name != "id" && name != "event" && name != "data" ==> SetField(p, name, v) == p;
  }

  lemma {:induction false} CommentFirst(p: Parser, es: seq<Entry>)
    requires es != [] && !es[0].Pair?
    ensures Meant(p, es) == Meant(p, es[1..])
  {
    ValuesFirst(es, "id");
    ValuesFirst(es, "event");
    ValuesFirst(es, "data");
  }

  lemma {:induction false} TakeFirst(p: Parser, line: string, more: seq<string>, host: Host)
    requires !p.failed
    ensures TakeAll(p, [line] + more, host) == TakeAll(TakeLine(p, line, host), more, host)
  {
    assert ([line] + more)[1..] == more;
  }

  /** Every block of field lines: order, spacing, comments and carriage returns do not matter; data lines add up,
      of the others the last one counts, an id with a NUL does not, and neither does an unknown field. */
  lemma {:induction false} BlockMeans(p: Parser, es: seq<Entry>, host: Host)
    requires !p.failed && forall i :: 0 <= i < |es| ==> EntryOk(es[i])
    ensures TakeAll(p, AllSpelled(es), host) == Meant(p, es)
    decreases |es|
  {
    if es == [] {
      assert p.data + [] == p.data;
    } else {
      EntryTaken(p, es[0], host);
      TakeFirst(p, Spelled(es[0]), AllSpelled(es[1..]), host);
      if es[0].Pair? {
        PairFirst(p, es);
        BlockMeans(SetField(p, es[0].name, es[0].value), es[1..], host);
      } else {
        CommentFirst(p, es);
        BlockMeans(p, es[1..], host);
      }
    }
  }

  // ---------------------------------------------------------------------
  // The end of a block
  // ---------------------------------------------------------------------

  /** Joined lines are the printed ones but for the last line break. */
  lemma {:induction false} JoinIs(lines: seq<string>)
    requires lines != []
    ensures Join(lines) + "\n" == PrintLines(lines)
  {
    if |lines| == 1 {
      assert PrintLines(lines[1..]) == "" && "\n" + "" == "\n";
    } else {
      JoinIs(lines[1..]);
      assert (lines[0] + "\n" + Join(lines[1..])) + "\n" == lines[0] + ("\n" + (Join(lines[1..]) + "\n"));
    }
  }

  lemma {:induction false} ThenLine(p: Parser, lines: seq<string>, line: string, host: Host)
    requires !TakeAll(p, lines, host).failed
    ensures TakeAll(p, lines + [line], host) == TakeLine(TakeAll(p, lines, host), line, host)
    decreases |lines|
  {
    if lines == [] {
      assert [] + [line] == [line] && [line][1..] == [];
      assert TakeAll(p, [line], host) == TakeAll(TakeLine(p, line, host), [], host);
    } else {
      ThenLine(TakeLine(p, lines[0], host), lines[1..], line, host);
      assert [lines[0]] + (lines[1..] + [line]) == lines + [line];
      TakeFirst(p, lines[0], lines[1..] + [line], host);
    }
  }

  /** A block yields one frame of its last id, its last type and its data lines, if it has data; without data it
      yields nothing, and data that is not JSON ends the stream. Nothing is carried over to the next block. */
  lemma {:induction false} BlockYields(frames: seq<Frame>, es: seq<Entry>, host: Host)
    requires forall i :: 0 <= i < |es| ==> EntryOk(es[i])
    ensures var p := TakeAll(Start(frames), AllSpelled(es) + [""], host);
      var data, ids := Values(es, "data"), WithoutNul(Values(es, "id"));
      if data == [] then p == Start(frames)
      else if !host.json(Join(data)) then p.failed && p.frames == frames
      else p == Start(frames + [Frame(if ids == [] then None else NumberOf(ids[|ids| - 1], host),
                                      LastOr(Values(es, "event"), "message"), Join(data))])
  {
    BlockMeans(Start(frames), es, host);
    ThenLine(Start(frames), AllSpelled(es), "", host);
    assert [] + Values(es, "data") == Values(es, "data");
  }

  /** A line that means the same with and without its line ending: not a name alone, no carriage return, no id
      with a NUL. */
  predicate Finishes(e: Entry) {
    match e
    case Pair(name, value, style, cr) =>
      || !Known(name)
      || (!cr && style != Bare && (name == "id" ==> !Has(value, '\0')))
    case Comment(_) => true
  }

  lemma {:induction false} FirstColon(a: string, b: string, s: string, t: string)
    requires !Has(a, ':') && !Has(b, ':') && a + [':'] + s == b + [':'] + t
    ensures a == b && s == t
  {
    FirstIs(a, s, ':');
    FirstIs(b, t, ':');
  }

  /** Only a field with this name starts with the name and a colon. */
  lemma {:induction false} StartsIff(name: string, text: string, field: string)
    requires !Has(name, ':') && !Has(field, ':')
    ensures StartsWith(name + [':'] + text, field + [':']) <==> name == field
    ensures !StartsWith(name, field + [':'])
  {
    var line, word := name + [':'] + text, field + [':'];
    if StartsWith(line, word) {
      assert line == word + line[|word|..];
      FirstColon(name, field, text, line[|word|..]);
    }
    assert word[|field|] == ':';
  }

  lemma {:induction false} FinishPair(p: Parser, name: string, rest: string, host: Host)
    requires !p.failed && !Has(name, ':')
    ensures Finish(p, name + [':'] + rest, host) ==
      if name == "data" then Dispatch(p.(data := p.data + [StripSpace(rest)]), host)
      else if name == "event" then Dispatch(p.(kind := StripSpace(rest)), host)
      else if name == "id" then Dispatch(p.(id := Some(StripSpace(rest))), host)
      else Dispatch(p, host)
  {
    var line := name + [':'] + rest;
    assert "data" + [':'] == "data:" && "event" + [':'] == "event:" && "id" + [':'] == "id:";
    StartsIff(name, rest, "data");
    StartsIff(name, rest, "event");
    StartsIff(name, rest, "id");
    assert line[|name| + 1..] == rest;
  }

  lemma {:induction false} FinishBare(p: Parser, name: string, host: Host)
    requires !p.failed && !Has(name, ':')
    ensures Finish(p, name, host) == Dispatch(p, host)
  {
    assert "data" + [':'] == "data:" && "event" + [':'] == "event:" && "id" + [':'] == "id:";
    StartsIff(name, "", "data");
    StartsIff(name, "", "event");
    StartsIff(name, "", "id");
  }

  /** What stands behind the colon of a field. */
  function AfterColon(e: Entry): string
    requires e.Pair? && !e.style.Bare?
  {
    (if e.style.Spaced? then " " + e.value else e.value) + (if e.cr then "\r" else "")
  }

  lemma {:induction false} SpelledPair(e: Entry)
    requires EntryOk(e) && e.Pair? && !e.style.Bare?
    ensures Spelled(e) == e.name + [':'] + AfterColon(e)
    ensures !e.cr ==> StripSpace(AfterColon(e)) == e.value
  {
    if !e.cr { assert AfterColon(e) == if e.style.Spaced? then " " + e.value else e.value; }
  }

  predicate Known(name: string) {
    name == "id" || name == "event" || name == "data"
  }

  lemma {:induction false} FinishKnown(p: Parser, e: Entry, host: Host)
    requires EntryOk(e) && Finishes(e) && !p.failed && e.Pair? && Known(e.name)
    ensures Finish(p, Spelled(e), host) == Dispatch(SetField(p, e.name, e.value), host)
  {
    SpelledPair(e);
    FinishPair(p, e.name, AfterColon(e), host);
  }

  lemma {:induction false} FinishUnknown(p: Parser, e: Entry, host: Host)
    requires EntryOk(e) && !p.failed && e.Pair? && !Known(e.name)
    ensures Finish(p, Spelled(e), host) == Dispatch(p, host)
  {
    if e.style.Bare? {
      NameEnd(p, e.name, if e.cr then "\r" else "", host);
    } else {
      SpelledPair(e);
      FinishPair(p, e.name, AfterColon(e), host);
    }
  }

  lemma {:induction false} FinishComment(p: Parser, text: string, host: Host)
    requires !p.failed
    ensures Finish(p, ":" + text, host) == Dispatch(p, host)
  {
    assert ":" + text == "" + [':'] + text;
    FinishPair(p, "", text, host);
  }

  /** The last line of a stream does what it would have done with a line break behind it. */
  lemma {:induction false} FinishEntry(p: Parser, e: Entry, host: Host)
    requires EntryOk(e) && Finishes(e) && !p.failed
    ensures Finish(p, Spelled(e), host) == Dispatch(TakeLine(p, Spelled(e), host), host)
  {
    EntryTaken(p, e, host);
    if !e.Pair? {
      FinishComment(p, e.text, host);
    } else if Known(e.name) {
      FinishKnown(p, e, host);
    } else {
      FinishUnknown(p, e, host);
      assert SetField(p, e.name, e.value) == p;
    }
  }

  lemma {:induction false} NameEnd(p: Parser, name: string, end: string, host: Host)
    requires !p.failed && !Has(name, ':') && (end == "" || end == "\r")
    ensures Finish(p, name + end, host) == Dispatch(p, host)
  {
    assert forall i :: 0 <= i < |name + end| ==> (name + end)[i] == if i < |name| then name[i] else '\r';
    FinishBare(p, name + end, host);
  }

  lemma {:induction false} DispatchAgain(p: Parser, host: Host)
    requires !Dispatch(p, host).failed
    ensures Finish(Dispatch(p, host), "", host) == Dispatch(p, host)
  {
  }

  /** What is left when the line in front of the end and the blank line have been read. */
  lemma {:induction false} ClosedEnd(p: Parser, line: string, host: Host)
    requires !p.failed && !Has(line, '\n') && !TakeLine(p, line, host).failed
    ensures Parse(p, line + (['\n'] + (['\n'] + "")), host) == Dispatch(TakeLine(p, line, host), host)
  {
    var q := TakeLine(p, line, host);
    FirstLine(p, line, ['\n'] + "", Lexer(host));
    assert "" + (['\n'] + "") == ['\n'] + "";
    FirstLine(q, "", "", Lexer(host));
    assert TakeLine(q, "", host) == Dispatch(q, host);
    assert IndexOf("", '\n') < 0;
    if !Dispatch(q, host).failed { DispatchAgain(q, host); }
  }

  lemma {:induction false} OpenEnd(p: Parser, line: string, host: Host)
    requires !Has(line, '\n')
    ensures Parse(p, line, host) == Finish(p, line, host)
  {
    assert IndexOf(line, '\n') < 0;
  }

  /** An event that the stream ends in is delivered as if it had been ended, if its last line finishes. */
  lemma {:induction false} UnterminatedIs(p: Parser, lines: seq<string>, e: Entry, host: Host)
    requires NoBreaks(lines) && !TakeAll(p, lines, host).failed
    requires EntryOk(e) && Finishes(e) && !Has(Spelled(e), '\n')
    ensures Parse(p, PrintLines(lines) + Spelled(e), host)
      == Parse(p, PrintLines(lines) + (Spelled(e) + (['\n'] + (['\n'] + ""))), host)
  {
    var q, line := TakeAll(p, lines, host), Spelled(e);
    var closed := line + (['\n'] + (['\n'] + ""));
    LinesPrinted(p, lines, line, Lexer(host));
    LinesPrinted(p, lines, closed, Lexer(host));
    assert Parse(p, PrintLines(lines) + line, host) == Parse(q, line, host);
    assert Parse(p, PrintLines(lines) + closed, host) == Parse(q, closed, host);
    EntryTaken(q, e, host);
    OpenEnd(q, line, host);
    FinishEntry(q, e, host);
    ClosedEnd(q, line, host);
  }

  /** It does not hold of a name alone: `data` without a colon counts before a line break only. */
  lemma {:induction false} BareDataDropped(host: Host)
    ensures Parse(Start([]), "data", host) == Start([])
    ensures Parse(Start([]), "data" + (['\n'] + (['\n'] + "")), host) != Start([])
  {
    OpenEnd(Start([]), "data", host);
    BareLine(Start([]), "data", "data", host);
    FinishBare(Start([]), "data", host);
    ClosedEnd(Start([]), "data", host);
  }
}
