/**
 What a consumer of the Exchange adapter sees: per block index one start, then
 deltas, then one end whose block is the concatenation of the deltas; and the
 blocks are what the provider's frames say, field by field.
 */
module ExchangeBlocks {
  import opened Options
  import opened LineFraming
  import opened Decimals
  import opened ExchangeStream

  // ---------------------------------------------------------------------
  // A consumer that concatenates deltas
  // ---------------------------------------------------------------------

  /** What is known about one block index. */
  datatype Slot = Unused | Open(kind: Kind, id: Option<string>, name: string, text: string) | Closed(block: Block) | Bad

  predicate Agrees(s: Slot, b: Block) {
    match b
    case TextBlock(text) => s == Open(TextKind, None, "", text)
    case ReasoningBlock(text) => s == Open(ReasoningKind, None, "", text)
    case ToolBlock(id, name, arguments) => s == Open(ToolKind, Some(id), name, arguments)
  }

  function SlotStep(s: Slot, c: Chunk, i: nat): Slot {
    match c
    case Usage(_) => s
    case Finished(_) => s
    case BlockStart(j, kind) => if j != i then s else if s == Unused then Open(kind, None, "", "") else Bad
    case TextDelta(j, text) =>
      if j != i then s else if s.Open? && s.kind == TextKind then s.(text := s.text + text) else Bad
    case ReasoningDelta(j, text) =>
      if j != i then s else if s.Open? && s.kind == ReasoningKind then s.(text := s.text + text) else Bad
    case ToolDelta(j, id, name, arguments) =>
      if j != i then s
      else if s.Open? && s.kind == ToolKind && (s.id == None || s.id == Some(id)) then
        Open(ToolKind, Some(id), if name == "" then s.name else name, s.text + arguments)
      else Bad
    case BlockEnd(j, block) => if j != i then s else if Agrees(s, block) then Closed(block) else Bad
  }

  function ReadAt(out: seq<Chunk>, i: nat): Slot {
    if out == [] then Unused else SlotStep(ReadAt(out[..|out| - 1], i), out[|out| - 1], i)
  }

  lemma {:induction false} ReadNext(out: seq<Chunk>, c: Chunk, i: nat)
    ensures ReadAt(out + [c], i) == SlotStep(ReadAt(out, i), c, i)
  {
    assert (out + [c])[..|out|] == out;
  }

  // ---------------------------------------------------------------------
  // What the assembler has told it so far
  // ---------------------------------------------------------------------

  /** The call whose block has index `i`. */
  function Owner(calls: seq<Call>, i: nat): Option<Call> {
    if i < 2 || i == MAX_SAFE_INTEGER + 2 then None
    else if i == MAX_SAFE_INTEGER + 1 && Get(calls, MAX_SAFE_INTEGER).Some? then Get(calls, MAX_SAFE_INTEGER)
    else Get(calls, i - 2)
  }

  /** Two calls share one block index exactly when both of these provider indices occur. */
  predicate Clash(calls: seq<Call>) {
    Get(calls, MAX_SAFE_INTEGER - 1).Some? && Get(calls, MAX_SAFE_INTEGER).Some?
  }

  function OpenCall(c: Option<Call>): Slot {
    if c.None? then Unused else Open(ToolKind, Some(c.value.id), c.value.name, c.value.arguments)
  }

  function Expect(p: Assembly, i: nat): Slot {
    if i == 0 then (if p.hasText then Open(TextKind, None, "", p.fullText) else Unused)
    else if i == 1 then (if p.hasReasoning then Open(ReasoningKind, None, "", p.fullReasoning) else Unused)
    else OpenCall(Owner(p.calls, i))
  }

  ghost predicate Told(p: Assembly) {
    && (!p.hasText ==> p.fullText == "")
    && (!p.hasReasoning ==> p.fullReasoning == "")
    && if Clash(p.calls) then ReadAt(p.out, MAX_SAFE_INTEGER + 1) == Bad
    else forall i: nat :: ReadAt(p.out, i) == Expect(p, i)
  }

  /** No provider index occurs twice, and every call has its id. */
  predicate CallsOk(calls: seq<Call>) {
    calls == [] || (calls[0].id != "" && Get(calls[1..], calls[0].provider).None? && CallsOk(calls[1..]))
  }

  lemma {:induction false} GetPut(calls: seq<Call>, c: Call, n: nat)
    ensures Get(Put(calls, c), n) == if n == c.provider then Some(c) else Get(calls, n)
  {
    if calls != [] && calls[0].provider != c.provider { GetPut(calls[1..], c, n); }
  }

  lemma {:induction false} GetOk(calls: seq<Call>, n: nat)
    requires CallsOk(calls) && Get(calls, n).Some?
    ensures Get(calls, n).value.provider == n && Get(calls, n).value.id != ""
  {
    if calls[0].provider != n { GetOk(calls[1..], n); }
  }

  lemma {:induction false} PutOk(calls: seq<Call>, c: Call)
    requires CallsOk(calls) && c.id != ""
    ensures CallsOk(Put(calls, c))
  {
    if calls != [] && calls[0].provider != c.provider {
      PutOk(calls[1..], c);
      GetPut(calls[1..], c, calls[0].provider);
    }
  }

  lemma {:induction false} TextTold(p: Assembly, text: string)
    requires Told(p)
    ensures Told(AddText(p, text))
  {
    if text != "" {
      var p', mid := AddText(p, text), if p.hasText then p.out else p.out + [BlockStart(0, TextKind)];
      forall i: nat ensures ReadAt(p'.out, i) == if i == 0 then SlotStep(ReadAt(mid, 0), TextDelta(0, text), 0)
        else ReadAt(p.out, i) {
        ReadNext(mid, TextDelta(0, text), i);
        if !p.hasText { ReadNext(p.out, BlockStart(0, TextKind), i); }
      }
      if !p.hasText { ReadNext(p.out, BlockStart(0, TextKind), 0); }
      if !Clash(p.calls) {
        assert ReadAt(p.out, 0) == Expect(p, 0);
        assert "" + text == text;
        forall i: nat ensures ReadAt(p'.out, i) == Expect(p', i) { assert ReadAt(p.out, i) == Expect(p, i); }
      }
    }
  }

  lemma {:induction false} ReasoningTold(p: Assembly, text: string)
    requires Told(p)
    ensures Told(AddReasoning(p, text))
  {
    if text != "" {
      var p', mid := AddReasoning(p, text), if p.hasReasoning then p.out else p.out + [BlockStart(1, ReasoningKind)];
      forall i: nat ensures ReadAt(p'.out, i) == if i == 1 then SlotStep(ReadAt(mid, 1), ReasoningDelta(1, text), 1)
        else ReadAt(p.out, i) {
        ReadNext(mid, ReasoningDelta(1, text), i);
        if !p.hasReasoning { ReadNext(p.out, BlockStart(1, ReasoningKind), i); }
      }
      if !p.hasReasoning { ReadNext(p.out, BlockStart(1, ReasoningKind), 1); }
      if !Clash(p.calls) {
        assert ReadAt(p.out, 1) == Expect(p, 1);
        assert "" + text == text;
        forall i: nat ensures ReadAt(p'.out, i) == Expect(p', i) { assert ReadAt(p.out, i) == Expect(p, i); }
      }
    }
  }

  /** What one tool-call delta, and the start before it if the call is new, do to a slot. */
  function Announce(s: Slot, isNew: bool, c: Call, arguments: string): Slot {
    var b := BlockIndex(c.provider);
    var s1 := if isNew then SlotStep(s, BlockStart(b, ToolKind), b) else s;
    SlotStep(s1, ToolDelta(b, c.id, c.name, arguments), b)
  }

  function Provider(p: Assembly, q: Partial): nat {
    if q.index.Some? then q.index.value else p.toolSequence
  }

  function Merged(p: Assembly, q: Partial): Call {
    var n := Provider(p, q);
    Merge(if Get(p.calls, n).Some? then Get(p.calls, n).value else Call(n, "", "", ""), q)
  }

  lemma {:induction false} PartialReads(p: Assembly, q: Partial, i: nat)
    requires CallsOk(p.calls)
    ensures var n := Provider(p, q);
      ReadAt(AddPartial(p, q).out, i) ==
        if i == BlockIndex(n) then Announce(ReadAt(p.out, i), Get(p.calls, n).None?, Merged(p, q), Or(q.arguments))
          else ReadAt(p.out, i)
  {
    var n, c := Provider(p, q), Merged(p, q);
    if Get(p.calls, n).Some? { GetOk(p.calls, n); } else { ReadNext(p.out, BlockStart(BlockIndex(n), ToolKind), i); }
    var mid := if Get(p.calls, n).Some? then p.out else p.out + [BlockStart(BlockIndex(n), ToolKind)];
    ReadNext(mid, ToolDelta(BlockIndex(n), c.id, c.name, Or(q.arguments)), i);
  }

  lemma {:induction false} MergedProvider(p: Assembly, q: Partial)
    requires CallsOk(p.calls)
    ensures Merged(p, q).provider == Provider(p, q) && Merged(p, q).id != ""
    ensures AddPartial(p, q).calls == Put(p.calls, Merged(p, q))
    ensures forall n :: Get(AddPartial(p, q).calls, n) == if n == Provider(p, q) then Some(Merged(p, q))
      else Get(p.calls, n)
  {
    if Get(p.calls, Provider(p, q)).Some? { GetOk(p.calls, Provider(p, q)); }
    forall n: nat ensures Get(AddPartial(p, q).calls, n) == if n == Provider(p, q) then Some(Merged(p, q))
      else Get(p.calls, n) {
      GetPut(p.calls, Merged(p, q), n);
    }
  }

  /** Announcing a call turns the slot of its old value into the slot of its new one. */
  lemma {:induction false} Announced(p: Assembly, q: Partial)
    requires CallsOk(p.calls)
    ensures var known := Get(p.calls, Provider(p, q));
      Announce(OpenCall(known), known.None?, Merged(p, q), Or(q.arguments)) == OpenCall(Some(Merged(p, q)))
  {
    var known, c := Get(p.calls, Provider(p, q)), Merged(p, q);
    if known.Some? {
      GetOk(p.calls, Provider(p, q));
    } else {
      assert "" + Or(q.arguments) == Or(q.arguments);
    }
  }

  lemma {:induction false} OwnerIs(calls: seq<Call>, n: nat)
    requires !Clash(calls)
    ensures Get(calls, n).Some? ==> Owner(calls, BlockIndex(n)) == Get(calls, n)
  {
  }

  predicate SameSpeech(p: Assembly, q: Assembly) {
    && q.fullText == p.fullText && q.hasText == p.hasText && q.fullReasoning == p.fullReasoning
      && q.hasReasoning == p.hasReasoning
    && q.pieces == p.pieces
  }

  /** `p'` is `p` after a partial for provider index `n`, whose call is now `c`. */
  ghost predicate After(p: Assembly, p': Assembly, n: nat, c: Call, arguments: string) {
    && SameSpeech(p, p')
    && (forall k: nat :: Get(p'.calls, k) == if k == n then Some(c) else Get(p.calls, k))
    && Announce(OpenCall(Get(p.calls, n)), Get(p.calls, n).None?, c, arguments) == OpenCall(Some(c))
    && c.provider == n
    && forall i: nat :: ReadAt(p'.out, i) ==
        if i == BlockIndex(n) then Announce(ReadAt(p.out, i), Get(p.calls, n).None?, c, arguments) else ReadAt(p.out, i)
  }

  lemma {:induction false} PartialAfter(p: Assembly, q: Partial)
    requires CallsOk(p.calls)
    ensures After(p, AddPartial(p, q), Provider(p, q), Merged(p, q), Or(q.arguments))
    ensures CallsOk(AddPartial(p, q).calls)
  {
    MergedProvider(p, q);
    PutOk(p.calls, Merged(p, q));
    Announced(p, q);
    forall i: nat ensures ReadAt(AddPartial(p, q).out, i) == if i == BlockIndex(Provider(p, q)) then
        Announce(ReadAt(p.out, i), Get(p.calls, Provider(p, q)).None?, Merged(p, q), Or(q.arguments))
          else ReadAt(p.out, i) {
      PartialReads(p, q, i);
    }
  }

  lemma {:induction false} AfterTold(p: Assembly, p': Assembly, n: nat, c: Call, arguments: string)
    requires Told(p) && After(p, p', n, c, arguments)
    ensures Told(p')
  {
    if Clash(p'.calls) {
      AfterClash(p, p', n, c, arguments);
    } else {
      forall i: nat ensures ReadAt(p'.out, i) == Expect(p', i) { AfterAt(p, p', n, c, arguments, i); }
    }
  }

  lemma {:induction false} AfterClash(p: Assembly, p': Assembly, n: nat, c: Call, arguments: string)
    requires Told(p) && After(p, p', n, c, arguments) && Clash(p'.calls)
    ensures ReadAt(p'.out, MAX_SAFE_INTEGER + 1) == Bad
  {
    if !Clash(p.calls) { assert ReadAt(p.out, MAX_SAFE_INTEGER + 1) == Expect(p, MAX_SAFE_INTEGER + 1); }
  }

  lemma {:induction false} AfterAt(p: Assembly, p': Assembly, n: nat, c: Call, arguments: string, i: nat)
    requires Told(p) && After(p, p', n, c, arguments) && !Clash(p'.calls)
    ensures ReadAt(p'.out, i) == Expect(p', i)
  {
    assert !Clash(p.calls) && ReadAt(p.out, i) == Expect(p, i);
    if i == BlockIndex(n) {
      OwnerIs(p'.calls, n);
      assert Owner(p.calls, i) == Get(p.calls, n);
    } else {
      assert Owner(p'.calls, i) == Owner(p.calls, i);
    }
  }

  lemma {:induction false} PartialTold(p: Assembly, q: Partial)
    requires Told(p) && CallsOk(p.calls)
    ensures var p' := AddPartial(p, q); Told(p') && CallsOk(p'.calls) && SameSpeech(p, p')
  {
    PartialAfter(p, q);
    AfterTold(p, AddPartial(p, q), Provider(p, q), Merged(p, q), Or(q.arguments));
  }

  // ---------------------------------------------------------------------
  // What the frames say
  // ---------------------------------------------------------------------

  function Texts(ps: seq<Payload>): string {
    if ps == [] || !ps[|ps| - 1].Piece? then "" else Texts(ps[..|ps| - 1]) + ps[|ps| - 1].text
  }

  function Reasonings(ps: seq<Payload>): string {
    if ps == [] || !ps[|ps| - 1].Piece? then "" else Reasonings(ps[..|ps| - 1]) + ps[|ps| - 1].reasoning
  }

  /** How many partials carry no index of their own. */
  function Unindexed(qs: seq<Attributed>): nat {
    if qs == [] then 0 else Unindexed(qs[..|qs| - 1]) + (if qs[|qs| - 1].partial.index.None? then 1 else 0)
  }

  /** A partial without an index counts as the next unindexed one. */
  predicate WellAttributed(qs: seq<Attributed>) {
    qs == [] ||
    (WellAttributed(qs[..|qs| - 1]) &&
     var q := qs[|qs| - 1];
     q.provider == (if q.partial.index.Some? then q.partial.index.value else Unindexed(qs[..|qs| - 1])))
  }

  /** The partials of one provider index, in order. */
  function Mine(n: nat, qs: seq<Attributed>): seq<Partial> {
    if qs == [] then []
    else Mine(n, qs[..|qs| - 1]) + (if qs[|qs| - 1].provider == n then [qs[|qs| - 1].partial] else [])
  }

  function Names(qs: seq<Partial>): string {
    if qs == [] then "" else Names(qs[..|qs| - 1]) + Or(qs[|qs| - 1].name)
  }

  function Arguments(qs: seq<Partial>): string {
    if qs == [] then "" else Arguments(qs[..|qs| - 1]) + Or(qs[|qs| - 1].arguments)
  }

  /** The id is that of the first partial, or a default; name and arguments are concatenated. */
  function Assembled(n: nat, mine: seq<Partial>): Option<Call> {
    if mine == [] then None
    else Some(Call(n, if Or(mine[0].id) != "" then Or(mine[0].id) else DefaultId(n), Names(mine), Arguments(mine)))
  }

  function Raw(qs: seq<Attributed>): seq<Partial> {
    if qs == [] then [] else Raw(qs[..|qs| - 1]) + [qs[|qs| - 1].partial]
  }

  function AllPartials(ps: seq<Payload>): seq<Partial> {
    if ps == [] || !ps[|ps| - 1].Piece? then [] else AllPartials(ps[..|ps| - 1]) + ps[|ps| - 1].partials
  }

  ghost predicate CallsTrue(p: Assembly) {
    && (forall n :: Get(p.calls, n) == Assembled(n, Mine(n, p.partials)))
    && p.toolSequence == Unindexed(p.partials)
    && WellAttributed(p.partials)
  }

  ghost predicate TextsTrue(p: Assembly) {
    && p.fullText == Texts(p.pieces) && (p.hasText <==> p.fullText != "")
    && p.fullReasoning == Reasonings(p.pieces) && (p.hasReasoning <==> p.fullReasoning != "")
    && Raw(p.partials) == AllPartials(p.pieces)
  }

  lemma {:induction false} MergeAssembles(n: nat, mine: seq<Partial>, q: Partial)
    ensures var known := Assembled(n, mine);
      Assembled(n, mine + [q]) == Some(Merge(if known.Some? then known.value else Call(n, "", "", ""), q))
  {
    var more := mine + [q];
    assert more[..|mine|] == mine;
    if mine == [] {
      assert Names([]) + Or(q.name) == "" + Or(q.name) && Arguments([]) + Or(q.arguments) == "" + Or(q.arguments);
    } else {
      assert more[0] == mine[0];
    }
  }

  lemma {:induction false} PartialTrue(p: Assembly, q: Partial)
    requires CallsTrue(p) && CallsOk(p.calls)
    ensures CallsTrue(AddPartial(p, q))
  {
    var p', n := AddPartial(p, q), Provider(p, q);
    MergedProvider(p, q);
    assert p'.partials[..|p.partials|] == p.partials;
    forall k ensures Get(p'.calls, k) == Assembled(k, Mine(k, p'.partials)) {
      assert Get(p.calls, k) == Assembled(k, Mine(k, p.partials));
      if k == n { MergeAssembles(n, Mine(n, p.partials), q); }
      else { assert Mine(k, p.partials) + [] == Mine(k, p.partials); }
    }
  }

  /** Everything an assembly is proved to satisfy, and what the frames have to do with it. */
  ghost predicate Inv(p: Assembly) {
    Told(p) && CallsOk(p.calls) && CallsTrue(p) && TextsTrue(p)
  }

  ghost predicate CallsInv(p: Assembly) {
    Told(p) && CallsOk(p.calls) && CallsTrue(p)
  }

  lemma {:induction false} PartialKeeps(p: Assembly, q: Partial) returns (p': Assembly)
    requires CallsInv(p)
    ensures p' == AddPartial(p, q) && CallsInv(p')
  {
    PartialTold(p, q);
    PartialTrue(p, q);
    p' := AddPartial(p, q);
  }

  lemma {:induction false} PartialsInv(p: Assembly, qs: seq<Partial>)
    requires CallsInv(p)
    ensures CallsInv(AddPartials(p, qs))
    decreases |qs|
  {
    if qs != [] {
      var p1 := PartialKeeps(p, qs[0]);
      PartialsInv(p1, qs[1..]);
    }
  }

  lemma {:induction false} PartialRaw(p: Assembly, q: Partial)
    ensures Raw(AddPartial(p, q).partials) == Raw(p.partials) + [q] && SameSpeech(p, AddPartial(p, q))
  {
    var a := Attributed(Provider(p, q), q);
    assert AddPartial(p, q).partials == p.partials + [a];
    assert (p.partials + [a])[..|p.partials|] == p.partials;
  }

  lemma {:induction false} PartialsSpeech(p: Assembly, qs: seq<Partial>)
    ensures SameSpeech(p, AddPartials(p, qs))
    decreases |qs|
  {
    if qs != [] {
      PartialRaw(p, qs[0]);
      PartialsSpeech(AddPartial(p, qs[0]), qs[1..]);
    }
  }

  lemma {:induction false} OneRaw(p: Assembly, qs: seq<Partial>) returns (p1: Assembly)
    requires qs != []
    ensures AddPartials(p, qs) == AddPartials(p1, qs[1..]) && Raw(p1.partials) == Raw(p.partials) + [qs[0]]
  {
    p1 := AddPartial(p, qs[0]);
    PartialRaw(p, qs[0]);
  }

  lemma {:induction false} ConsRegroup(a: seq<Partial>, qs: seq<Partial>)
    requires qs != []
    ensures (a + [qs[0]]) + qs[1..] == a + qs
  {
  }

  lemma {:induction false} PartialsRaw(p: Assembly, qs: seq<Partial>)
    ensures Raw(AddPartials(p, qs).partials) == Raw(p.partials) + qs
    decreases |qs|
  {
    if qs == [] {
      assert Raw(p.partials) + [] == Raw(p.partials);
    } else {
      var p1 := OneRaw(p, qs);
      PartialsRaw(p1, qs[1..]);
      ConsRegroup(Raw(p.partials), qs);
    }
  }

  lemma {:induction false} PartialsKeep(p: Assembly, qs: seq<Partial>)
    requires CallsInv(p)
    ensures CallsInv(AddPartials(p, qs))
    ensures Raw(AddPartials(p, qs).partials) == Raw(p.partials) + qs && SameSpeech(p, AddPartials(p, qs))
  {
    PartialsInv(p, qs);
    PartialsRaw(p, qs);
    PartialsSpeech(p, qs);
  }

  lemma {:induction false} UsageTold(p: Assembly, tokens: int)
    requires Told(p)
    ensures Told(p.(out := p.out + [Usage(tokens)]))
  {
    var p' := p.(out := p.out + [Usage(tokens)]);
    forall i: nat ensures ReadAt(p'.out, i) == ReadAt(p.out, i) { ReadNext(p.out, Usage(tokens), i); }
    if !Clash(p.calls) {
      forall i: nat ensures ReadAt(p'.out, i) == Expect(p', i) { assert ReadAt(p.out, i) == Expect(p, i); }
    }
  }

  /** The bookkeeping part of a frame. */
  function Note(p: Assembly, piece: Payload): Assembly
    requires piece.Piece?
  {
    p.(pieces := p.pieces + [piece],
       out := if piece.usage.Some? then p.out + [Usage(piece.usage.value)] else p.out,
       finish := if piece.finish.Some? then piece.finish else p.finish)
  }

  lemma {:induction false} ToldFrame(p: Assembly, q: Assembly)
    requires Told(p) && q.out == p.out && q.calls == p.calls
    requires q.hasText == p.hasText && q.fullText == p.fullText && q.hasReasoning == p.hasReasoning
      && q.fullReasoning == p.fullReasoning
    ensures Told(q)
  {
    if !Clash(p.calls) {
      forall i: nat ensures ReadAt(q.out, i) == Expect(q, i) { assert ReadAt(p.out, i) == Expect(p, i); }
    }
  }

  lemma {:induction false} NoteTold(p: Assembly, piece: Payload)
    requires Told(p) && piece.Piece?
    ensures Told(Note(p, piece))
  {
    if piece.usage.Some? {
      UsageTold(p, piece.usage.value);
      ToldFrame(p.(out := p.out + [Usage(piece.usage.value)]), Note(p, piece));
    } else {
      ToldFrame(p, Note(p, piece));
    }
  }

  function Spoken(p: Assembly, piece: Payload): Assembly
    requires piece.Piece?
  {
    AddReasoning(AddText(Note(p, piece), piece.text), piece.reasoning)
  }

  lemma {:induction false} SpokenKeeps(p: Assembly, piece: Payload)
    requires CallsInv(p) && piece.Piece?
    ensures CallsInv(Spoken(p, piece))
  {
    NoteTold(p, piece);
    TextTold(Note(p, piece), piece.text);
    ReasoningTold(AddText(Note(p, piece), piece.text), piece.reasoning);
    var p' := Spoken(p, piece);
    assert p'.calls == p.calls && p'.partials == p.partials && p'.toolSequence == p.toolSequence;
  }

  lemma {:induction false} SpokenFields(p: Assembly, piece: Payload)
    requires piece.Piece? && (p.hasText <==> p.fullText != "") && (p.hasReasoning <==> p.fullReasoning != "")
    ensures var p' := Spoken(p, piece);
      && p'.fullText == p.fullText + piece.text && (p'.hasText <==> p'.fullText != "")
      && p'.fullReasoning == p.fullReasoning + piece.reasoning && (p'.hasReasoning <==> p'.fullReasoning != "")
      && p'.partials == p.partials && p'.pieces == p.pieces + [piece]
  {
    assert p.fullText + "" == p.fullText && p.fullReasoning + "" == p.fullReasoning;
  }

  lemma {:induction false} SpokenTrue(p: Assembly, piece: Payload)
    requires TextsTrue(p) && piece.Piece?
    ensures var p' := Spoken(p, piece);
      && p'.fullText == Texts(p'.pieces) && (p'.hasText <==> p'.fullText != "")
      && p'.fullReasoning == Reasonings(p'.pieces) && (p'.hasReasoning <==> p'.fullReasoning != "")
      && Raw(p'.partials) + piece.partials == AllPartials(p'.pieces)
  {
    SpokenFields(p, piece);
    var ps := p.pieces + [piece];
    assert ps[..|p.pieces|] == p.pieces && ps[|ps| - 1] == piece;
    assert Texts(ps) == Texts(p.pieces) + piece.text && Reasonings(ps) == Reasonings(p.pieces) + piece.reasoning;
    assert AllPartials(ps) == AllPartials(p.pieces) + piece.partials;
  }

  lemma {:induction false} AbsorbKeeps(p: Assembly, piece: Payload)
    requires Inv(p) && piece.Piece?
    ensures Inv(Absorb(p, piece))
  {
    SpokenKeeps(p, piece);
    SpokenTrue(p, piece);
    PartialsKeep(Spoken(p, piece), piece.partials);
    assert Absorb(p, piece) == AddPartials(Spoken(p, piece), piece.partials);
  }

  lemma {:induction false} FlagsKeep(p: Assembly, done: bool, failed: bool)
    requires Inv(p)
    ensures Inv(p.(done := done, failed := failed))
  {
    ToldFrame(p, p.(done := done, failed := failed));
  }

  lemma {:induction false} DataKeeps(p: Assembly, data: string, decode: string -> Payload)
    requires Inv(p)
    ensures Inv(p.(done := true)) && Inv(p.(failed := true)) && (decode(data).Piece? ==> Inv(Absorb(p, decode(data))))
  {
    FlagsKeep(p, true, p.failed);
    FlagsKeep(p, p.done, true);
    if decode(data).Piece? { AbsorbKeeps(p, decode(data)); }
  }

  lemma {:induction false} ProcessKeeps(p: Assembly, line: string, decode: string -> Payload)
    requires Inv(p)
    ensures Inv(ProcessLine(p, line, decode))
  {
    if StartsWith(Trim(line), DATA) { DataKeeps(p, Trim(Trim(line)[|DATA|..]), decode); }
  }

  lemma {:induction false} LinesKeep(text: string, decode: string -> Payload)
    ensures Inv(Whole(text, decode).0)
  {
    StartOk();
    forall q: Assembly, line | Inv(q) ensures Inv(Splitter(decode).step(q, line))
      { ProcessKeeps(q, Chomp(line), decode); }
    LinesInvariant(Start(), text, Splitter(decode), q => Inv(q));
  }

  lemma {:induction false} TailKeeps(p: Assembly, buffer: string, decode: string -> Payload)
    requires Inv(p)
    ensures Inv(Tail(p, buffer, decode))
  {
    ProcessKeeps(p, Chomp(buffer), decode);
    var q := ProcessLine(p, Chomp(buffer), decode);
    FlagsKeep(q, p.done || q.done, q.failed);
  }

  lemma {:induction false} StartOk()
    ensures Inv(Start())
  {
  }

  lemma {:induction false} StreamKeeps(chunks: seq<string>, decode: string -> Payload)
    ensures Inv(Stream(chunks, decode))
  {
    var looked := StreamIs(chunks, decode);
    LinesKeep(Concat(chunks), decode);
    TailKeeps(Whole(Concat(chunks), decode).0, looked, decode);
  }

  // ---------------------------------------------------------------------
  // Completion
  // ---------------------------------------------------------------------

  function CallBlock(c: Call): Block {
    ToolBlock(c.id, c.name, c.arguments)
  }

  /** The end of every call, in the order in which the calls appeared. */
  function Ends(calls: seq<Call>): seq<Chunk> {
    if calls == [] then [] else [BlockEnd(BlockIndex(calls[0].provider), CallBlock(calls[0]))] + Ends(calls[1..])
  }

  predicate AllNamed(calls: seq<Call>) {
    forall i :: 0 <= i < |calls| ==> calls[i].name != ""
  }

  function ReasonOf(p: Assembly): Reason {
    if p.finish == Some("length") then MaxTokens
    else if p.calls != [] || p.finish == Some("tool_calls") || p.finish == Some("function_call") then ToolCalls
    else Stop
  }

  /** Everything that was yielded, if the stream completes normally. */
  function Completed(p: Assembly): Option<seq<Chunk>> {
    if p.failed || !p.done || !AllNamed(p.calls) then None
    else Some(p.out + Ends(p.calls)
      + (if p.hasText then [BlockEnd(0, TextBlock(p.fullText))] else [])
      + (if p.hasReasoning then [BlockEnd(1, ReasoningBlock(p.fullReasoning))] else [])
      + [Finished(ReasonOf(p))])
  }

  function EndOf(c: Option<Call>, s: Slot): Slot {
    if c.None? then s else Closed(CallBlock(c.value))
  }

  lemma {:induction false} OwnerFirst(calls: seq<Call>, i: nat)
    requires calls != [] && CallsOk(calls) && !Clash(calls)
    ensures !Clash(calls[1..])
    ensures if BlockIndex(calls[0].provider) == i then Owner(calls, i) == Some(calls[0]) && Owner(calls[1..], i) == None
            else Owner(calls, i) == Owner(calls[1..], i)
  {
  }

  lemma {:induction false} EndRead(out: seq<Chunk>, c: Call, i: nat)
    requires BlockIndex(c.provider) == i ==> ReadAt(out, i) == OpenCall(Some(c))
    ensures ReadAt(out + [BlockEnd(BlockIndex(c.provider), CallBlock(c))], i) ==
      if BlockIndex(c.provider) == i then Closed(CallBlock(c)) else ReadAt(out, i)
  {
    ReadNext(out, BlockEnd(BlockIndex(c.provider), CallBlock(c)), i);
  }

  lemma {:induction false} Regroup(out: seq<Chunk>, c: Chunk, more: seq<Chunk>)
    ensures (out + [c]) + more == out + ([c] + more)
  {
  }

  lemma {:induction false} EndsRead(out: seq<Chunk>, calls: seq<Call>, i: nat)
    requires CallsOk(calls) && !Clash(calls)
    requires Owner(calls, i).Some? ==> ReadAt(out, i) == OpenCall(Owner(calls, i))
    ensures ReadAt(out + Ends(calls), i) == EndOf(Owner(calls, i), ReadAt(out, i))
    decreases |calls|
  {
    if calls == [] {
      assert out + [] == out;
    } else {
      var e := BlockEnd(BlockIndex(calls[0].provider), CallBlock(calls[0]));
      OwnerFirst(calls, i);
      EndRead(out, calls[0], i);
      EndsRead(out + [e], calls[1..], i);
      Regroup(out, e, Ends(calls[1..]));
    }
  }

  lemma {:induction false} BadStays(out: seq<Chunk>, more: seq<Chunk>, i: nat)
    requires ReadAt(out, i) == Bad
    ensures ReadAt(out + more, i) == Bad
    decreases |more|
  {
    if more == [] {
      assert out + more == out;
    } else {
      ReadNext(out, more[0], i);
      BadStays(out + [more[0]], more[1..], i);
      assert (out + [more[0]]) + more[1..] == out + more;
    }
  }

  /** The final slot of an index: nothing, or the complete block. */
  function FinalSlot(p: Assembly, i: nat): Slot {
    if i == 0 then (if p.fullText == "" then Unused else Closed(TextBlock(p.fullText)))
    else if i == 1 then (if p.fullReasoning == "" then Unused else Closed(ReasoningBlock(p.fullReasoning)))
    else EndOf(Owner(p.calls, i), Unused)
  }

  lemma {:induction false} CompletedReads(p: Assembly, i: nat)
    requires Told(p) && CallsOk(p.calls) && Completed(p).Some? && !Clash(p.calls)
    requires (p.hasText <==> p.fullText != "") && (p.hasReasoning <==> p.fullReasoning != "")
    ensures ReadAt(Completed(p).value, i) == FinalSlot(p, i)
  {
    assert ReadAt(p.out, i) == Expect(p, i);
    EndsRead(p.out, p.calls, i);
    SpeechEnds(p, p.out + Ends(p.calls), i);
  }

  /** The last chunks: the ends of text and reasoning, and the reason. */
  lemma {:induction false} SpeechEnds(p: Assembly, out: seq<Chunk>, i: nat)
    ensures ReadAt(out + (if p.hasText then [BlockEnd(0, TextBlock(p.fullText))] else [])
      + (if p.hasReasoning then [BlockEnd(1, ReasoningBlock(p.fullReasoning))] else []) + [Finished(ReasonOf(p))], i)
      == var s := ReadAt(out, i);
         if i == 0 && p.hasText then SlotStep(s, BlockEnd(0, TextBlock(p.fullText)), 0)
         else if i == 1 && p.hasReasoning then SlotStep(s, BlockEnd(1, ReasoningBlock(p.fullReasoning)), 1) else s
  {
    var o2 := out + if p.hasText then [BlockEnd(0, TextBlock(p.fullText))] else [];
    var o3 := o2 + if p.hasReasoning then [BlockEnd(1, ReasoningBlock(p.fullReasoning))] else [];
    if p.hasText { ReadNext(out, BlockEnd(0, TextBlock(p.fullText)), i); } else { assert o2 == out; }
    if p.hasReasoning { ReadNext(o2, BlockEnd(1, ReasoningBlock(p.fullReasoning)), i); } else { assert o3 == o2; }
    ReadNext(o3, Finished(ReasonOf(p)), i);
  }

  lemma {:induction false} ClashIsBad(p: Assembly)
    requires Told(p) && Completed(p).Some? && Clash(p.calls)
    ensures ReadAt(Completed(p).value, MAX_SAFE_INTEGER + 1) == Bad
  {
    var i, more := MAX_SAFE_INTEGER + 1, if p.hasText then [BlockEnd(0, TextBlock(p.fullText))] else [];
    var rest := if p.hasReasoning then [BlockEnd(1, ReasoningBlock(p.fullReasoning))] else [];
    BadStays(p.out, Ends(p.calls), i);
    BadStays(p.out + Ends(p.calls), more, i);
    BadStays(p.out + Ends(p.calls) + more, rest, i);
    BadStays(p.out + Ends(p.calls) + more + rest, [Finished(ReasonOf(p))], i);
  }

  /** For every chunk sequence that completes normally: a consumer that concatenates deltas finds, at each
      index, either nothing or one start, its deltas and one agreeing end, unless two calls carry the two
      largest safe integers as their indices, and then it does not. */
  lemma {:induction false} BlocksAreSoundIff(chunks: seq<string>, decode: string -> Payload)
    requires Completed(Stream(chunks, decode)).Some?
    ensures var p := Stream(chunks, decode);
      (forall i: nat :: ReadAt(Completed(p).value, i) == FinalSlot(p, i)) <==> !Clash(p.calls)
  {
    StreamKeeps(chunks, decode);
    var p := Stream(chunks, decode);
    if Clash(p.calls) {
      ClashIsBad(p);
      assert FinalSlot(p, MAX_SAFE_INTEGER + 1) != Bad;
    } else {
      forall i: nat ensures ReadAt(Completed(p).value, i) == FinalSlot(p, i) { CompletedReads(p, i); }
    }
  }

  /** And the blocks are what the frames say: text and reasoning are the concatenated fields, and the call
      with index `n` has the first id, the concatenated names and arguments of its partials. */
  lemma {:induction false} BlocksAreFaithful(chunks: seq<string>, decode: string -> Payload, n: nat)
    ensures var p := Stream(chunks, decode);
      && p.fullText == Texts(p.pieces) && p.fullReasoning == Reasonings(p.pieces)
      && Raw(p.partials) == AllPartials(p.pieces) && WellAttributed(p.partials)
      && Get(p.calls, n) == Assembled(n, Mine(n, p.partials))
  {
    StreamKeeps(chunks, decode);
  }

  // ---- and the clash happens ----

  /** A named call under this provider index. */
  function NamedCall(index: nat): Partial {
    Partial(Some(index), None, Some("f"), None)
  }

  function TwoLargest(): Payload {
    Piece(None, None, "", "", [NamedCall(MAX_SAFE_INTEGER - 1), NamedCall(MAX_SAFE_INTEGER)])
  }

  function FirstCall(index: nat): Call {
    Call(index, DefaultId(index), "f", "")
  }

  lemma {:induction false} OneCall(p: Assembly, index: nat)
    requires Get(p.calls, index).None?
    ensures AddPartial(p, NamedCall(index)).calls == Put(p.calls, FirstCall(index))
    ensures AddPartial(p, NamedCall(index)).failed == p.failed
  {
    assert "" + "f" == "f" && "" + "" == "";
  }

  lemma {:induction false} NothingSpoken()
    ensures Spoken(Start(), TwoLargest()).calls == [] && !Spoken(Start(), TwoLargest()).failed
  {
  }

  lemma {:induction false} TwoCalls()
    ensures Absorb(Start(), TwoLargest()).calls == [FirstCall(MAX_SAFE_INTEGER - 1), FirstCall(MAX_SAFE_INTEGER)]
    ensures !Absorb(Start(), TwoLargest()).failed && !Absorb(Start(), TwoLargest()).done
  {
    var a, b := NamedCall(MAX_SAFE_INTEGER - 1), NamedCall(MAX_SAFE_INTEGER);
    var p := Spoken(Start(), TwoLargest());
    NothingSpoken();
    OneCall(p, MAX_SAFE_INTEGER - 1);
    var p1 := AddPartial(p, a);
    assert p1.calls == [FirstCall(MAX_SAFE_INTEGER - 1)];
    OneCall(p1, MAX_SAFE_INTEGER);
    assert p1.calls[1..] == [];
    assert [a, b][1..] == [b];
    assert AddPartials(p, [a, b]) == AddPartials(p1, [b]);
    assert AddPartials(p1, [b]) == AddPartials(AddPartial(p1, b), [b][1..]) == AddPartial(p1, b);
  }

  lemma {:induction false} CallsClash(p: Assembly)
    requires p.calls == [FirstCall(MAX_SAFE_INTEGER - 1), FirstCall(MAX_SAFE_INTEGER)] && p.done && !p.failed
    ensures Clash(p.calls) && Completed(p).Some?
  {
    assert p.calls[1..][0] == FirstCall(MAX_SAFE_INTEGER);
    assert Get(p.calls, MAX_SAFE_INTEGER) == Get(p.calls[1..], MAX_SAFE_INTEGER) == Some(p.calls[1..][0]);
  }

  /** The text of two lines: the two calls, and the terminal line. */
  function TwoLines(): string {
    DATA + "x" + (['\n'] + (DATA + DONE + (['\n'] + "")))
  }

  lemma {:induction false} FirstStep(decode: string -> Payload)
    requires decode("x") == TwoLargest()
    ensures Splitter(decode).step(Start(), DATA + "x") == Absorb(Start(), TwoLargest())
  {
    WordLine(Start(), "x", decode);
  }

  lemma {:induction false} LastStep(p1: Assembly, decode: string -> Payload)
    ensures Splitter(decode).step(p1, DATA + DONE) == p1.(done := true)
  {
    WordLine(p1, DONE, decode);
  }

  lemma {:induction false} StopsWhen(p: Assembly, decode: string -> Payload)
    ensures Splitter(decode).stopped(p) == (p.done || p.failed)
  {
  }

  lemma {:induction false} NoBreakInLines()
    ensures !Has(DATA + "x", '\n') && !Has(DATA + DONE, '\n')
  {
  }

  lemma {:induction false} TwoLinesRead(p1: Assembly, decode: string -> Payload)
    requires decode("x") == TwoLargest() && p1 == Absorb(Start(), TwoLargest())
    ensures Whole(TwoLines(), decode) == (p1.(done := true), "")
  {
    FirstStep(decode);
    LastStep(p1, decode);
    TwoCalls();
    StopsWhen(Start(), decode);
    StopsWhen(p1, decode);
    StopsWhen(p1.(done := true), decode);
    NoBreakInLines();
    TwoSteps(Start(), DATA + "x", DATA + DONE, Splitter(decode));
  }

  /** A stream of two lines completes normally with two named calls under the two largest indices, and its
      blocks are not sound. */
  lemma {:induction false} ClashHappens(decode: string -> Payload)
    requires decode("x") == TwoLargest()
    ensures var p := Stream([TwoLines()], decode);
      Completed(p).Some? && Clash(p.calls) && ReadAt(Completed(p).value, MAX_SAFE_INTEGER + 1) == Bad
  {
    var chunks := [TwoLines()];
    assert Concat(chunks) == chunks[0] + Concat(chunks[1..]) == chunks[0];
    TwoLinesRead(Absorb(Start(), TwoLargest()), decode);
    var looked := StreamIs(chunks, decode);
    assert Trim("") == "" && looked == "";
    TwoCalls();
    var p := Stream(chunks, decode);
    CallsClash(p);
    StreamKeeps(chunks, decode);
    ClashIsBad(p);
  }
}
