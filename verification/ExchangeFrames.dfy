/**
 Which frames an Exchange stream consists of, and how it ends: the pieces an
 assembly was built from are those of the data lines, usage is passed on as it
 came, and the reason at the end is read off the frames alone.
 */
module ExchangeFrames {
  import opened Options
  import opened LineFraming
  import opened Decimals
  import opened ExchangeStream
  import opened ExchangeBlocks

  // ---------------------------------------------------------------------
  // The frames of a text
  // ---------------------------------------------------------------------

  /** The contents of the data lines, in order. Every other line is ignored. */
  function Contents(lines: seq<string>): seq<string> {
    if lines == [] then []
    else
      var line := Trim(Chomp(lines[0]));
      (if line[..if |line| < 5 then |line| else 5] == "data:" then [Trim(line[5..])] else []) + Contents(lines[1..])
  }

  /** What the contents amount to: the pieces before the first terminal or bad one. */
  datatype Reading = Reading(pieces: seq<Payload>, done: bool, failed: bool)

  function ReadContents(cs: seq<string>, decode: string -> Payload): Reading {
    if cs == [] then Reading([], false, false)
    else if cs[0] == "[DONE]" then Reading([], true, false)
    else if !decode(cs[0]).Piece? then Reading([], false, true)
    else
      var r := ReadContents(cs[1..], decode);
      r.(pieces := [decode(cs[0])] + r.pieces)
  }

  /** `p'` has taken in what `r` says. */
  predicate Took(p: Assembly, p': Assembly, r: Reading) {
    p'.pieces == p.pieces + r.pieces && p'.done == r.done && p'.failed == r.failed
  }

  lemma {:induction false} PartialsFlags(p: Assembly, qs: seq<Partial>)
    ensures AddPartials(p, qs).pieces == p.pieces
    ensures AddPartials(p, qs).done == p.done && AddPartials(p, qs).failed == p.failed
    decreases |qs|
  {
    if qs != [] { PartialsFlags(AddPartial(p, qs[0]), qs[1..]); }
  }

  lemma {:induction false} SpokenFlags(p: Assembly, piece: Payload)
    requires piece.Piece?
    ensures Spoken(p, piece).pieces == p.pieces + [piece]
    ensures Spoken(p, piece).done == p.done && Spoken(p, piece).failed == p.failed
  {
  }

  lemma {:induction false} AbsorbIs(p: Assembly, piece: Payload) returns (p1: Assembly)
    requires piece.Piece?
    ensures p1 == Spoken(p, piece) && Absorb(p, piece) == AddPartials(p1, piece.partials)
  {
    p1 := Spoken(p, piece);
  }

  lemma {:induction false} AbsorbFlags(p: Assembly, piece: Payload)
    requires piece.Piece?
    ensures Absorb(p, piece).pieces == p.pieces + [piece]
    ensures Absorb(p, piece).done == p.done && Absorb(p, piece).failed == p.failed
  {
    SpokenFlags(p, piece);
    var p1 := AbsorbIs(p, piece);
    PartialsFlags(p1, piece.partials);
  }

  lemma {:induction false} LineContents(p: Assembly, line: string, decode: string -> Payload)
    ensures var cs := Contents([line]);
      && |cs| <= 1
      && Splitter(decode).step(p, line) ==
        if cs == [] then p
        else if cs[0] == "[DONE]" then p.(done := true)
        else if !decode(cs[0]).Piece? then p.(failed := true)
        else Absorb(p, decode(cs[0]))
  {
    var t := Trim(Chomp(line));
    assert Contents([line][1..]) == [];
    assert StartsWith(t, DATA) <==> t[..if |t| < 5 then |t| else 5] == "data:";
  }

  lemma {:induction false} ContentsFirst(lines: seq<string>)
    requires lines != []
    ensures Contents(lines) == Contents([lines[0]]) + Contents(lines[1..])
  {
    assert Contents([lines[0]][1..]) == [];
  }

  lemma {:induction false} StepFlags(p: Assembly, line: string, decode: string -> Payload) returns (p1: Assembly)
    requires !p.done && !p.failed
    ensures p1 == Splitter(decode).step(p, line)
    ensures Took(p, p1, ReadContents(Contents([line]), decode))
  {
    LineContents(p, line, decode);
    p1 := Splitter(decode).step(p, line);
    var cs := Contents([line]);
    if cs != [] {
      assert cs[1..] == [];
      if decode(cs[0]).Piece? { AbsorbFlags(p, decode(cs[0])); }
    }
  }

  /** One reading after the other. */
  function Then(r: Reading, later: Reading): Reading {
    if r.done || r.failed then r else later.(pieces := r.pieces + later.pieces)
  }

  lemma {:induction false} ReadConcat(a: seq<string>, b: seq<string>, decode: string -> Payload)
    ensures ReadContents(a + b, decode) == Then(ReadContents(a, decode), ReadContents(b, decode))
    decreases |a|
  {
    if a == [] {
      assert a + b == b;
      assert [] + ReadContents(b, decode).pieces == ReadContents(b, decode).pieces;
    } else {
      ReadConcat(a[1..], b, decode);
      assert (a + b)[1..] == a[1..] + b;
      Regroup3([decode(a[0])], ReadContents(a[1..], decode).pieces, ReadContents(b, decode).pieces);
    }
  }

  lemma {:induction false} Regroup3(a: seq<Payload>, b: seq<Payload>, c: seq<Payload>)
    ensures (a + b) + c == a + (b + c)
  {
  }

  lemma {:induction false} TookBoth(p: Assembly, p1: Assembly, p2: Assembly, r1: Reading, r2: Reading)
    requires Took(p, p1, r1)
    requires if p1.done || p1.failed then p2 == p1 else Took(p1, p2, r2)
    ensures Took(p, p2, Then(r1, r2))
  {
    assert (p.pieces + r1.pieces) + r2.pieces == p.pieces + (r1.pieces + r2.pieces);
  }

  lemma {:induction false} ReadFirst(lines: seq<string>, decode: string -> Payload)
    requires lines != []
    ensures ReadContents(Contents(lines), decode)
      == Then(ReadContents(Contents([lines[0]]), decode), ReadContents(Contents(lines[1..]), decode))
  {
    ContentsFirst(lines);
    ReadConcat(Contents([lines[0]]), Contents(lines[1..]), decode);
  }

  lemma {:induction false} StepFirst(p: Assembly, lines: seq<string>, decode: string -> Payload)
    requires lines != [] && !p.done && !p.failed
    ensures StepAll(p, lines, Splitter(decode))
      == StepAll(Splitter(decode).step(p, lines[0]), lines[1..], Splitter(decode))
  {
  }

  lemma {:induction false} LinesTaken(p: Assembly, lines: seq<string>, decode: string -> Payload) returns (p': Assembly)
    requires !p.done && !p.failed
    ensures p' == StepAll(p, lines, Splitter(decode)) && Took(p, p', ReadContents(Contents(lines), decode))
    decreases |lines|
  {
    if lines == [] {
      assert p.pieces + [] == p.pieces;
      p' := p;
    } else {
      var p1 := StepFlags(p, lines[0], decode);
      StepFirst(p, lines, decode);
      if p1.done || p1.failed {
        StoppedAll(p1, lines[1..], decode);
        p' := p1;
      } else {
        p' := LinesTaken(p1, lines[1..], decode);
      }
      ReadFirst(lines, decode);
      TookBoth(p, p1, p', ReadContents(Contents([lines[0]]), decode), ReadContents(Contents(lines[1..]), decode));
    }
  }

  lemma {:induction false} StoppedAll(p: Assembly, lines: seq<string>, decode: string -> Payload)
    requires p.done || p.failed
    ensures StepAll(p, lines, Splitter(decode)) == p
  {
  }

  /** The lines of a text, and what stands behind the last line break. */
  lemma {:induction false} Splits(text: string) returns (lines: seq<string>, rest: string)
    ensures text == PrintLines(lines) + rest && NoBreaks(lines) && !Has(rest, '\n')
    decreases |text|
  {
    var k := IndexOf(text, '\n');
    if k < 0 {
      lines, rest := [], text;
      assert "" + text == text;
    } else {
      var more;
      more, rest := Splits(text[k + 1..]);
      lines := [text[..k]] + more;
      assert PrintLines(lines) == text[..k] + ("\n" + PrintLines(more));
      assert text == text[..k] + ("\n" + text[k + 1..]);
      Regroup(text[..k], PrintLines(more), rest);
    }
  }

  /** A stopped machine has read the lines up to the one that stopped it; any other has read them all. */
  lemma {:induction false} LinesOfText(p: Assembly, lines: seq<string>, rest: string, decode: string -> Payload)
    requires NoBreaks(lines) && !Has(rest, '\n')
    ensures Lines(p, PrintLines(lines) + rest, Splitter(decode)).0 == StepAll(p, lines, Splitter(decode))
    decreases |lines|
  {
    if p.done || p.failed {
      StoppedAll(p, lines, decode);
    } else if lines == [] {
      assert "" + rest == rest;
    } else {
      FirstLine(p, lines[0], PrintLines(lines[1..]) + rest, Splitter(decode));
      LineFraming.Regroup(lines[0], PrintLines(lines[1..]), rest);
      LinesOfText(Splitter(decode).step(p, lines[0]), lines[1..], rest, decode);
    }
  }

  lemma {:induction false} Regroup(line: string, h: string, r: string)
    ensures (line + ("\n" + h)) + r == line + ("\n" + (h + r))
  {
  }

  /** For every division of every text: up to the terminal line, the pieces of an assembly are those of the data
      lines in order, it is done iff the first content that is no piece is the terminal one, and failed iff it is
      another. */
  lemma {:induction false} FramesAreDataLines(lines: seq<string>, rest: string, decode: string -> Payload)
    requires NoBreaks(lines) && !Has(rest, '\n')
    ensures var p := Whole(PrintLines(lines) + rest, decode).0;
      var r := ReadContents(Contents(lines), decode);
      p.pieces == r.pieces && p.done == r.done && p.failed == r.failed
  {
    LinesOfText(Start(), lines, rest, decode);
    var p := LinesTaken(Start(), lines, decode);
    assert [] + ReadContents(Contents(lines), decode).pieces == ReadContents(Contents(lines), decode).pieces;
  }

  lemma {:induction false} ContentsCons(line: string, more: seq<string>)
    ensures Contents([line] + more) == Contents([line]) + Contents(more)
  {
    ContentsFirst([line] + more);
    assert ([line] + more)[1..] == more;
  }

  lemma {:induction false} Regroup4(a: seq<string>, b: seq<string>, c: seq<string>)
    ensures (a + b) + c == a + (b + c)
  {
  }

  lemma {:induction false} ContentsConcat(lines: seq<string>, line: string)
    ensures Contents(lines + [line]) == Contents(lines) + Contents([line])
  {
    if lines == [] {
      assert [] + [line] == [line];
    } else {
      ContentsConcat(lines[1..], line);
      assert lines + [line] == [lines[0]] + (lines[1..] + [line]) && lines == [lines[0]] + lines[1..];
      ContentsCons(lines[0], lines[1..] + [line]);
      ContentsCons(lines[0], lines[1..]);
      Regroup4(Contents([lines[0]]), Contents(lines[1..]), Contents([line]));
    }
  }

  lemma {:induction false} SpaceTrims(t: string)
    requires AllSpace(t)
    ensures Trim(t) == ""
  {
    if t != "" { SpaceTrims(t[1..]); }
  }

  lemma {:induction false} BlankIsNothing(line: string)
    requires Trim(line) == ""
    ensures Contents([line]) == []
  {
    var before, behind := TrimIs(line);
    assert AllSpace(line);
    SpaceTrims(Chomp(line));
    assert Contents([line][1..]) == [];
  }

  /** What is left when no line stopped the machine. */
  lemma {:induction false} RestOfText(p: Assembly, lines: seq<string>, rest: string, decode: string -> Payload)
    requires NoBreaks(lines) && !Has(rest, '\n')
    requires var q := StepAll(p, lines, Splitter(decode)); !q.done && !q.failed
    ensures Lines(p, PrintLines(lines) + rest, Splitter(decode)).1 == rest
  {
    LinesPrinted(p, lines, rest, Splitter(decode));
    assert IndexOf(rest, '\n') < 0;
  }

  lemma {:induction false} TailReads(p: Assembly, rest: string, decode: string -> Payload) returns (p': Assembly)
    requires !p.done && !p.failed
    ensures p' == Tail(p, rest, decode) && Took(p, p', ReadContents(Contents([rest]), decode))
  {
    p' := Tail(p, rest, decode);
    if Trim(rest) == "" {
      BlankIsNothing(rest);
      assert p.pieces + [] == p.pieces;
    } else {
      var p1 := StepFlags(p, rest, decode);
    }
  }

  /** Without a terminated terminal line, and for every division into chunks: what stands behind the last line break
      is one more line, so a stream may end in its terminal line, or in a last frame. */
  lemma {:induction false} StreamIsDataLines(chunks: seq<string>, lines: seq<string>, rest: string,
                                             decode: string -> Payload)
    requires Concat(chunks) == PrintLines(lines) + rest && NoBreaks(lines) && !Has(rest, '\n')
    requires !ReadContents(Contents(lines), decode).done
    ensures var r := ReadContents(Contents(lines + [rest]), decode);
      var p := Stream(chunks, decode);
      p.pieces == r.pieces && p.done == r.done && p.failed == r.failed
  {
    FramesAreDataLines(lines, rest, decode);
    LinesOfText(Start(), lines, rest, decode);
    UnterminatedIsIndependent(chunks, decode);
    ContentsConcat(lines, rest);
    ReadConcat(Contents(lines), Contents([rest]), decode);
    var q := Whole(Concat(chunks), decode).0;
    if !q.failed {
      RestOfText(Start(), lines, rest, decode);
      var p := TailReads(q, rest, decode);
    }
  }

  // ---------------------------------------------------------------------
  // Usage and finish reason
  // ---------------------------------------------------------------------

  /** The usage that was yielded. */
  function UsageOut(out: seq<Chunk>): seq<int> {
    if out == [] then []
    else UsageOut(out[..|out| - 1]) + (if out[|out| - 1].Usage? then [out[|out| - 1].tokens] else [])
  }

  /** The usage of the frames. */
  function UsageIn(ps: seq<Payload>): seq<int> {
    if ps == [] then []
    else
      var last := ps[|ps| - 1];
      UsageIn(ps[..|ps| - 1]) + (if last.Piece? && last.usage.Some? then [last.usage.value] else [])
  }

  predicate HasFinish(piece: Payload) {
    piece.Piece? && piece.finish.Some?
  }

  /** `f` is the last finish reason of these frames. */
  ghost predicate LastFinish(ps: seq<Payload>, f: Option<string>) {
    if f.None? then forall i :: 0 <= i < |ps| ==> !HasFinish(ps[i])
    else exists i ::
      0 <= i < |ps| && HasFinish(ps[i]) && ps[i].finish == f && (forall j :: i < j < |ps| ==> !HasFinish(ps[j]))
  }

  ghost predicate EndInv(p: Assembly) {
    LastFinish(p.pieces, p.finish) && UsageOut(p.out) == UsageIn(p.pieces)
  }

  lemma {:induction false} UsageNext(out: seq<Chunk>, c: Chunk)
    ensures UsageOut(out + [c]) == UsageOut(out) + (if c.Usage? then [c.tokens] else [])
  {
    assert (out + [c])[..|out|] == out;
  }

  lemma {:induction false} OtherNext(out: seq<Chunk>, c: Chunk)
    requires !c.Usage?
    ensures UsageOut(out + [c]) == UsageOut(out)
  {
    UsageNext(out, c);
    assert UsageOut(out) + [] == UsageOut(out);
  }

  lemma {:induction false} NoteEnds(p: Assembly, piece: Payload)
    requires EndInv(p) && piece.Piece?
    ensures EndInv(Note(p, piece))
  {
    var ps := p.pieces + [piece];
    assert ps[..|p.pieces|] == p.pieces && ps[|ps| - 1] == piece;
    if piece.usage.Some? { UsageNext(p.out, Usage(piece.usage.value)); }
    else { assert UsageIn(p.pieces) + [] == UsageIn(p.pieces); }
    FinishNext(p.pieces, p.finish, piece);
  }

  lemma {:induction false} FinishNext(ps: seq<Payload>, f: Option<string>, piece: Payload)
    requires LastFinish(ps, f) && piece.Piece?
    ensures LastFinish(ps + [piece], if piece.finish.Some? then piece.finish else f)
  {
    var more := ps + [piece];
    if piece.finish.Some? {
      assert HasFinish(more[|ps|]);
    } else if f.Some? {
      var i :| 0 <= i < |ps| && HasFinish(ps[i]) && ps[i].finish == f && forall j :: i < j < |ps| ==> !HasFinish(ps[j]);
      assert HasFinish(more[i]) && more[i].finish == f;
    }
  }

  /** Text, reasoning and calls neither yield usage nor set the finish reason. */
  predicate SameEnd(p: Assembly, q: Assembly) {
    q.pieces == p.pieces && q.finish == p.finish && UsageOut(q.out) == UsageOut(p.out)
  }

  lemma {:induction false} TextEnds(p: Assembly, text: string)
    ensures SameEnd(p, AddText(p, text))
  {
    if text != "" {
      OtherNext(p.out, BlockStart(0, TextKind));
      OtherNext(if p.hasText then p.out else p.out + [BlockStart(0, TextKind)], TextDelta(0, text));
    }
  }

  lemma {:induction false} ReasoningEnds(p: Assembly, text: string)
    ensures SameEnd(p, AddReasoning(p, text))
  {
    if text != "" {
      OtherNext(p.out, BlockStart(1, ReasoningKind));
      OtherNext(if p.hasReasoning then p.out else p.out + [BlockStart(1, ReasoningKind)], ReasoningDelta(1, text));
    }
  }

  lemma {:induction false} PartialEnds(p: Assembly, q: Partial)
    ensures SameEnd(p, AddPartial(p, q))
  {
    var n, c := Provider(p, q), Merged(p, q);
    var b := BlockIndex(n);
    OtherNext(p.out, BlockStart(b, ToolKind));
    OtherNext(if Get(p.calls, n).Some? then p.out else p.out + [BlockStart(b, ToolKind)],
      ToolDelta(b, c.id, c.name, Or(q.arguments)));
  }

  lemma {:induction false} PartialsEnd(p: Assembly, qs: seq<Partial>)
    ensures SameEnd(p, AddPartials(p, qs))
    decreases |qs|
  {
    if qs != [] {
      PartialEnds(p, qs[0]);
      PartialsEnd(AddPartial(p, qs[0]), qs[1..]);
    }
  }

  lemma {:induction false} AbsorbEnds(p: Assembly, piece: Payload)
    requires EndInv(p) && piece.Piece?
    ensures EndInv(Absorb(p, piece))
  {
    NoteEnds(p, piece);
    TextEnds(Note(p, piece), piece.text);
    ReasoningEnds(AddText(Note(p, piece), piece.text), piece.reasoning);
    var p1 := AbsorbIs(p, piece);
    PartialsEnd(p1, piece.partials);
  }

  lemma {:induction false} ProcessEnds(p: Assembly, line: string, decode: string -> Payload)
    requires EndInv(p)
    ensures EndInv(ProcessLine(p, line, decode))
  {
    var data := if StartsWith(Trim(line), DATA) then Trim(Trim(line)[|DATA|..]) else "";
    if decode(data).Piece? { AbsorbEnds(p, decode(data)); }
  }

  lemma {:induction false} StreamEnds(chunks: seq<string>, decode: string -> Payload)
    ensures EndInv(Stream(chunks, decode))
  {
    var looked := StreamIs(chunks, decode);
    forall q: Assembly, line | EndInv(q) ensures EndInv(Splitter(decode).step(q, line)) {
      ProcessEnds(q, Chomp(line), decode);
    }
    LinesInvariant(Start(), Concat(chunks), Splitter(decode), q => EndInv(q));
    ProcessEnds(Whole(Concat(chunks), decode).0, Chomp(looked), decode);
  }

  // ---------------------------------------------------------------------
  // Completion
  // ---------------------------------------------------------------------

  lemma {:induction false} PutGets(calls: seq<Call>, i: nat)
    requires CallsOk(calls) && i < |calls|
    ensures Get(calls, calls[i].provider) == Some(calls[i])
  {
    if i > 0 {
      PutGets(calls[1..], i - 1);
      assert calls[i] == calls[1..][i - 1];
    }
  }

  lemma {:induction false} GetIsMember(calls: seq<Call>, n: nat) returns (i: nat)
    requires Get(calls, n).Some?
    ensures i < |calls| && calls[i] == Get(calls, n).value
  {
    if calls[0].provider == n {
      i := 0;
    } else {
      i := GetIsMember(calls[1..], n);
      i := i + 1;
    }
  }

  /** The frames give every call they mention a name. */
  ghost predicate EveryCallNamed(qs: seq<Attributed>) {
    forall n :: Mine(n, qs) != [] ==> Names(Mine(n, qs)) != ""
  }

  lemma {:induction false} NamedIff(p: Assembly)
    requires CallsOk(p.calls) && CallsTrue(p)
    ensures AllNamed(p.calls) <==> EveryCallNamed(p.partials)
  {
    if AllNamed(p.calls) {
      forall n | Mine(n, p.partials) != [] ensures Names(Mine(n, p.partials)) != "" {
        assert Get(p.calls, n) == Assembled(n, Mine(n, p.partials));
        var i := GetIsMember(p.calls, n);
      }
    }
    if EveryCallNamed(p.partials) {
      forall i: nat | i < |p.calls| ensures p.calls[i].name != "" {
        var n := p.calls[i].provider;
        PutGets(p.calls, i);
        assert Get(p.calls, n) == Assembled(n, Mine(n, p.partials));
      }
    }
  }

  lemma {:induction false} RawNone(qs: seq<Attributed>)
    ensures Raw(qs) == [] <==> qs == []
  {
  }

  lemma {:induction false} CallsNoneIff(p: Assembly)
    requires Inv(p)
    ensures p.calls == [] <==> AllPartials(p.pieces) == []
  {
    var qs := p.partials;
    RawNone(qs);
    if qs != [] {
      var n := qs[|qs| - 1].provider;
      assert Get(p.calls, n) == Assembled(n, Mine(n, qs));
      assert Mine(n, qs) != [];
    }
    if p.calls != [] {
      assert Get(p.calls, p.calls[0].provider) == Assembled(p.calls[0].provider, Mine(p.calls[0].provider, qs));
    }
  }

  /** A stream completes normally iff the terminal line was read, no line failed, and the frames name every
      call they mention. */
  lemma {:induction false} CompletesIff(chunks: seq<string>, decode: string -> Payload)
    ensures var p := Stream(chunks, decode);
      Completed(p).Some? <==> p.done && !p.failed && EveryCallNamed(p.partials)
  {
    StreamKeeps(chunks, decode);
    NamedIff(Stream(chunks, decode));
  }

  lemma {:induction false} UsageConcat(a: seq<Chunk>, b: seq<Chunk>)
    requires forall i :: 0 <= i < |b| ==> !b[i].Usage?
    ensures UsageOut(a + b) == UsageOut(a)
    decreases |b|
  {
    if b == [] {
      assert a + b == a;
    } else {
      OtherNext(a, b[0]);
      UsageConcat(a + [b[0]], b[1..]);
      assert (a + [b[0]]) + b[1..] == a + b;
    }
  }

  predicate OnlyEnds(ends: seq<Chunk>) {
    forall i :: 0 <= i < |ends| ==> ends[i].BlockEnd?
  }

  lemma {:induction false} CallEndsAre(calls: seq<Call>)
    ensures OnlyEnds(Ends(calls))
  {
    if calls != [] { CallEndsAre(calls[1..]); }
  }

  /** The chunks behind those yielded while reading: only ends, and one finish at the very end. */
  lemma {:induction false} LastChunks(p: Assembly) returns (ends: seq<Chunk>)
    requires Completed(p).Some?
    ensures Completed(p).value == p.out + ends + [Finished(ReasonOf(p))] && OnlyEnds(ends)
  {
    var text := if p.hasText then [BlockEnd(0, TextBlock(p.fullText))] else [];
    var reasoning := if p.hasReasoning then [BlockEnd(1, ReasoningBlock(p.fullReasoning))] else [];
    CallEndsAre(p.calls);
    ends := Ends(p.calls) + text + reasoning;
    assert p.out + ends == p.out + Ends(p.calls) + text + reasoning;
  }

  lemma {:induction false} UsageCompleted(p: Assembly) returns (init: seq<Chunk>)
    requires Completed(p).Some?
    ensures Completed(p).value == init + [Finished(ReasonOf(p))]
    ensures UsageOut(Completed(p).value) == UsageOut(p.out)
  {
    var ends := LastChunks(p);
    UsageConcat(p.out, ends);
    OtherNext(p.out + ends, Finished(ReasonOf(p)));
    init := p.out + ends;
  }

  lemma {:induction false} ReasonOfIff(p: Assembly)
    requires LastFinish(p.pieces, p.finish) && (p.calls == [] <==> AllPartials(p.pieces) == [])
    ensures var ps := p.pieces;
      && (ReasonOf(p) == MaxTokens <==> LastFinish(ps, Some("length")))
      && (ReasonOf(p) == ToolCalls <==>
            && !LastFinish(ps, Some("length"))
            && (AllPartials(ps) != [] || LastFinish(ps, Some("tool_calls")) || LastFinish(ps, Some("function_call"))))
  {
    LastFinishIff(p, "length");
    LastFinishIff(p, "tool_calls");
    LastFinishIff(p, "function_call");
  }

  /** The reason a completed stream ends with: `max-tokens` iff the last finish reason of the frames is `length`;
      otherwise `tool-calls` iff the frames hold a tool call or that reason is one of the two names for it;
      otherwise `stop`. The usage a consumer sees is that of the frames, in order. */
  lemma {:induction false} ReasonIff(chunks: seq<string>, decode: string -> Payload) returns (reason: Reason)
    requires Completed(Stream(chunks, decode)).Some?
    ensures var p := Stream(chunks, decode);
      var out, ps := Completed(p).value, p.pieces;
      && UsageOut(out) == UsageIn(ps)
      && out != [] && out[|out| - 1] == Finished(reason)
      && (reason == MaxTokens <==> LastFinish(ps, Some("length")))
      && (reason == ToolCalls <==>
            && !LastFinish(ps, Some("length"))
            && (AllPartials(ps) != [] || LastFinish(ps, Some("tool_calls")) || LastFinish(ps, Some("function_call"))))
  {
    var p := Stream(chunks, decode);
    StreamKeeps(chunks, decode);
    StreamEnds(chunks, decode);
    CallsNoneIff(p);
    ReasonOfIff(p);
    var init := UsageCompleted(p);
    reason := ReasonOf(p);
  }

  lemma {:induction false} LastFinishIff(p: Assembly, reason: string)
    requires LastFinish(p.pieces, p.finish)
    ensures LastFinish(p.pieces, Some(reason)) <==> p.finish == Some(reason)
  {
  }

  /** Calls without an id of their own get different ones: the index can be read off each. */
  lemma {:induction false} DefaultIdsDiffer(n: nat, m: nat)
    ensures var id := DefaultId(n);
      "exchange-tool-" <= id && AllDigits(id[14..]) && ValueOf(id[14..]) == n
    ensures DefaultId(n) == DefaultId(m) <==> n == m
  {
    DecimalReadsBack(n);
    DecimalReadsBack(m);
    assert DefaultId(n)[14..] == Decimal(n) && DefaultId(m)[14..] == Decimal(m);
  }
}
