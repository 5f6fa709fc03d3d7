/**
 The Exchange adapter: an incremental line splitter feeding an assembler that
 turns OpenAI-style deltas into typed blocks. `decode` stands for `JSON.parse` and
 the field checks behind it.
 */
module ExchangeStream {
  import opened Options
  import opened LineFraming
  import opened Decimals

  /** One element of `tool_calls`; `None` where the field is absent or of the wrong type. */
  datatype Partial = Partial(index: Option<nat>, id: Option<string>, name: Option<string>, arguments: Option<string>)

  /** The content of a data line. Absent text or reasoning is empty. */
  datatype Payload =
    | Malformed
    | ErrorFrame
    | Piece(usage: Option<int>, finish: Option<string>, text: string, reasoning: string, partials: seq<Partial>)

  datatype Kind = TextKind | ReasoningKind | ToolKind

  datatype Block =
    | TextBlock(text: string)
    | ReasoningBlock(text: string)
    | ToolBlock(id: string, name: string, arguments: string)

  datatype Reason = MaxTokens | ToolCalls | Stop

  datatype Chunk =
    | Usage(tokens: int)
    | BlockStart(index: nat, kind: Kind)
    | TextDelta(index: nat, text: string)
    | ReasoningDelta(index: nat, text: string)
    | ToolDelta(index: nat, id: string, name: string, arguments: string)  // an empty name is absent
    | BlockEnd(index: nat, block: Block)
    | Finished(reason: Reason)

  datatype Call = Call(provider: nat, id: string, name: string, arguments: string)

  /** A partial with the provider index it was attributed to. */
  datatype Attributed = Attributed(provider: nat, partial: Partial)

  /** The local variables of `stream`, what was yielded, and two histories for the proofs. */
  datatype Assembly = Assembly(
    hasText: bool, fullText: string, hasReasoning: bool, fullReasoning: string,
    calls: seq<Call>, toolSequence: nat, finish: Option<string>,
    out: seq<Chunk>, done: bool, failed: bool,
    pieces: seq<Payload>, partials: seq<Attributed>)

  function Start(): Assembly {
    Assembly(false, "", false, "", [], 0, None, [], false, false, [], [])
  }

  // ---------------------------------------------------------------------
  // processLine
  // ---------------------------------------------------------------------

  /** Block indices are doubles: 2^53 + 1 is not representable and rounds to 2^53. */
  function BlockIndex(provider: nat): nat {
    if provider == MAX_SAFE_INTEGER then MAX_SAFE_INTEGER + 1 else provider + 2
  }

  function DefaultId(provider: nat): string {
    "exchange-tool-" + Decimal(provider)
  }

  function Get(calls: seq<Call>, n: nat): Option<Call> {
    if calls == [] then None else if calls[0].provider == n then Some(calls[0]) else Get(calls[1..], n)
  }

  /** `Map.set`: an existing entry keeps its place. */
  function Put(calls: seq<Call>, c: Call): seq<Call> {
    if calls == [] then [c]
    else if calls[0].provider == c.provider then [c] + calls[1..]
    else [calls[0]] + Put(calls[1..], c)
  }

  function Or(s: Option<string>): string {
    if s.Some? then s.value else ""
  }

  function AddText(p: Assembly, text: string): Assembly {
    if text == "" then p
    else p.(hasText := true, fullText := p.fullText + text,
            out := (if p.hasText then p.out else p.out + [BlockStart(0, TextKind)]) + [TextDelta(0, text)])
  }

  function AddReasoning(p: Assembly, text: string): Assembly {
    if text == "" then p
    else p.(hasReasoning := true, fullReasoning := p.fullReasoning + text,
            out := (if p.hasReasoning then p.out else p.out + [BlockStart(1, ReasoningKind)])
              + [ReasoningDelta(1, text)])
  }

  function Merge(c: Call, q: Partial): Call {
    var id := if c.id == "" && q.id.Some? then q.id.value else c.id;
    Call(c.provider, if id != "" then id else DefaultId(c.provider), c.name + Or(q.name), c.arguments + Or(q.arguments))
  }

  function AddPartial(p: Assembly, q: Partial): Assembly {
    var n := if q.index.Some? then q.index.value else p.toolSequence;
    var known := Get(p.calls, n);
    var c := Merge(if known.Some? then known.value else Call(n, "", "", ""), q);
    p.(toolSequence := if q.index.Some? then p.toolSequence else p.toolSequence + 1,
       calls := Put(p.calls, c),
       out := (if known.Some? then p.out else p.out + [BlockStart(BlockIndex(n), ToolKind)])
              + [ToolDelta(BlockIndex(n), c.id, c.name, Or(q.arguments))],
       partials := p.partials + [Attributed(n, q)])
  }

  function AddPartials(p: Assembly, qs: seq<Partial>): Assembly
    decreases |qs|
  {
    if qs == [] then p else AddPartials(AddPartial(p, qs[0]), qs[1..])
  }

  /** A frame may carry usage, a finish reason, text, reasoning and tool calls, in this order. */
  function Absorb(p: Assembly, piece: Payload): Assembly
    requires piece.Piece?
  {
    var p1 := p.(pieces := p.pieces + [piece],
                 out := if piece.usage.Some? then p.out + [Usage(piece.usage.value)] else p.out,
                 finish := if piece.finish.Some? then piece.finish else p.finish);
    AddPartials(AddReasoning(AddText(p1, piece.text), piece.reasoning), piece.partials)
  }

  const DATA := "data:"
  const DONE := "[DONE]"

  function ProcessLine(p: Assembly, line: string, decode: string -> Payload): Assembly {
    var trimmed := Trim(line);
    if !StartsWith(trimmed, DATA) then p
    else
      var data := Trim(trimmed[|DATA|..]);
      if data == DONE then p.(done := true)
      else if !decode(data).Piece? then p.(failed := true)
      else Absorb(p, decode(data))
  }

  // ---------------------------------------------------------------------
  // The chunk loop
  // ---------------------------------------------------------------------

  function Splitter(decode: string -> Payload): Machine<Assembly> {
    Machine((p: Assembly, line: string) => ProcessLine(p, Chomp(line), decode), (p: Assembly) => p.done || p.failed)
  }

  /** What is left in the buffer is one more line, also after the terminal line. */
  function Tail(p: Assembly, buffer: string, decode: string -> Payload): Assembly {
    if p.failed || Trim(buffer) == "" then p
    else
      var q := ProcessLine(p, Chomp(buffer), decode);
      q.(done := p.done || q.done)
  }

  function Stream(chunks: seq<string>, decode: string -> Payload): Assembly {
    var end := Run(Start(), "", chunks, Splitter(decode));
    Tail(end.0, end.1, decode)
  }

  // ---------------------------------------------------------------------
  // Chunk boundaries
  // ---------------------------------------------------------------------

  /** The state at the first terminal line or failure of the whole text, and the text behind it. */
  function Whole(text: string, decode: string -> Payload): (Assembly, string) {
    Lines(Start(), text, Splitter(decode))
  }

  lemma {:induction false} StreamIs(chunks: seq<string>, decode: string -> Payload) returns (looked: string)
    ensures var (q, rest) := Whole(Concat(chunks), decode);
      looked <= rest && (!q.done && !q.failed ==> looked == rest) && Stream(chunks, decode) == Tail(q, looked, decode)
  {
    RunIs(Start(), "", chunks, Splitter(decode));
    assert "" + Concat(chunks) == Concat(chunks);
    looked := Run(Start(), "", chunks, Splitter(decode)).1;
  }

  /** A text without a terminal line gives the same result for all cuts. */
  lemma {:induction false} UnterminatedIsIndependent(chunks: seq<string>, decode: string -> Payload)
    requires !Whole(Concat(chunks), decode).0.done
    ensures var (q, rest) := Whole(Concat(chunks), decode); Stream(chunks, decode) == Tail(q, rest, decode)
  {
    var looked := StreamIs(chunks, decode);
  }

  lemma {:induction false} TrimStartPrefix(a: string, t: string, word: string)
    requires a <= t && word != "" && !IsSpace(word[0]) && StartsWith(TrimStart(a), word)
    ensures StartsWith(TrimStart(t), word)
    decreases |a|
  {
    if a != "" && IsSpace(a[0]) {
      TrimStartPrefix(a[1..], t[1..], word);
    } else {
      assert a[0] == word[0] && t[0] == a[0];
      assert word <= t;
    }
  }

  lemma {:induction false} TrimEndIsPrefix(t: string)
    ensures TrimEnd(t) <= t
  {
    if t != "" && IsSpace(t[|t| - 1]) { TrimEndIsPrefix(t[..|t| - 1]); }
  }

  /** A prefix of a text that does not open a data line is ignored. */
  lemma {:induction false} IgnoredTail(p: Assembly, looked: string, rest: string, decode: string -> Payload)
    requires p.done && looked <= rest && !StartsWith(TrimStart(rest), DATA)
    ensures Tail(p, looked, decode) == p
  {
    var line := Chomp(looked);
    TrimEndIsPrefix(TrimStart(line));
    if StartsWith(Trim(line), DATA) {
      TrimStartPrefix(line, rest, DATA);
    }
  }

  /** Where the first data line behind the terminal one begins. */
  lemma {:induction false} DataPrefix(rest: string) returns (looked: string)
    requires StartsWith(TrimStart(rest), DATA)
    ensures looked <= rest && TrimStart(looked) == DATA && looked != "" && looked[|looked| - 1] == ':'
    decreases |rest|
  {
    if rest != "" && IsSpace(rest[0]) {
      looked := DataPrefix(rest[1..]);
      assert ([rest[0]] + looked)[1..] == looked;
      looked := [rest[0]] + looked;
    } else {
      looked := DATA;
    }
  }

  lemma {:induction false} BareDataFails(p: Assembly, looked: string, decode: string -> Payload)
    requires p.done && !p.failed && TrimStart(looked) == DATA && looked != "" && looked[|looked| - 1] == ':'
    requires decode("") == Malformed
    ensures Tail(p, looked, decode).failed
  {
    assert Chomp(looked) == looked;
    assert TrimEnd(DATA) == DATA;
    assert DATA[|DATA|..] == "" && Trim("") == "";
  }

  /** Is the result the same for every way to cut this text into chunks? */
  ghost predicate Independent(text: string, decode: string -> Payload) {
    forall a, b :: Concat(a) == text && Concat(b) == text ==> Stream(a, decode) == Stream(b, decode)
  }

  /** With a terminal line in the stream, the output does not depend on the chunks iff the text behind
      the first terminal line does not continue with another data line. */
  lemma {:induction false} IndependentIff(text: string, decode: string -> Payload)
    requires Whole(text, decode).0.done && !Whole(text, decode).0.failed && decode("") == Malformed
    ensures Independent(text, decode) <==> !StartsWith(TrimStart(Whole(text, decode).1), DATA)
  {
    var (q, rest) := Whole(text, decode);
    if !StartsWith(TrimStart(rest), DATA) {
      forall chunks | Concat(chunks) == text ensures Stream(chunks, decode) == q {
        var looked := StreamIs(chunks, decode);
        IgnoredTail(q, looked, rest, decode);
      }
    } else {
      var looked := DataPrefix(rest);
      BareDataFails(q, looked, decode);
      DependsOnCut(text, looked, decode);
    }
  }

  lemma {:induction false} DependsOnCut(text: string, looked: string, decode: string -> Payload)
    requires Whole(text, decode).0.done && !Whole(text, decode).0.failed
    requires looked <= Whole(text, decode).1 && Tail(Whole(text, decode).0, looked, decode).failed
    ensures !Independent(text, decode)
  {
    var early := Cut(Start(), text, "", Splitter(decode));
    var late := Cut(Start(), text, looked, Splitter(decode));
    assert Trim("") == "";
    assert Stream(early, decode) != Stream(late, decode);
  }

  // ---- and it happens ----

  /** A data line of one word. */
  lemma {:induction false} WordLine(p: Assembly, word: string, decode: string -> Payload)
    requires word != "" && !IsSpace(word[0]) && !IsSpace(word[|word| - 1])
    ensures ProcessLine(p, Chomp(DATA + word), decode) ==
      if word == DONE then p.(done := true)
      else if !decode(word).Piece? then p.(failed := true)
      else Absorb(p, decode(word))
  {
    var line := DATA + word;
    assert line[|line| - 1] == word[|word| - 1] && line[0] == DATA[0];
    assert Chomp(line) == line && TrimStart(line) == line && TrimEnd(line) == line;
    assert line[|DATA|..] == word && TrimStart(word) == word && TrimEnd(word) == word;
  }

  lemma {:induction false} WordRead(p: Assembly, word: string, rest: string, decode: string -> Payload)
    requires word != "" && !IsSpace(word[0]) && !IsSpace(word[|word| - 1]) && !Has(word, '\n')
    requires !p.done && !p.failed
    ensures Lines(p, DATA + word + (['\n'] + rest), Splitter(decode))
      == Lines(ProcessLine(p, Chomp(DATA + word), decode), rest, Splitter(decode))
  {
    assert !Has(DATA + word, '\n');
    FirstLine(p, DATA + word, rest, Splitter(decode));
  }

  lemma {:induction false} DoneStops(p: Assembly, tail: string, decode: string -> Payload)
    requires !p.done && !p.failed
    ensures Lines(p, DATA + DONE + (['\n'] + tail), Splitter(decode)) == (p.(done := true), tail)
  {
    WordLine(p, DONE, decode);
    WordRead(p, DONE, tail, decode);
  }

  /** Any stream that goes on with a data line behind its terminal line depends on its chunks. */
  lemma {:induction false} DependentStream(more: string, decode: string -> Payload)
    requires decode("") == Malformed
    ensures !Independent(DATA + DONE + (['\n'] + (DATA + more)), decode)
  {
    DoneStops(Start(), DATA + more, decode);
    assert (DATA + more)[0] == DATA[0];
    assert TrimStart(DATA + more) == DATA + more && DATA <= DATA + more;
    IndependentIff(DATA + DONE + (['\n'] + (DATA + more)), decode);
  }
}
