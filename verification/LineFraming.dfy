/** Text chunks and the newline search all three stream parsers are built on. */
module LineFraming {

  /** `indexOf` of a single character. */
  function IndexOf(t: string, c: char): (k: int)
    ensures -1 <= k < |t|
    ensures k >= 0 ==> t[k] == c
    ensures forall i :: 0 <= i < (if k < 0 then |t| else k) ==> t[i] != c
  {
    if t == "" then -1 else if t[0] == c then 0
    else var k := IndexOf(t[1..], c);
      assert forall i :: 0 < i < |t| ==> t[i] == t[1..][i - 1];
      if k < 0 then -1 else k + 1
  }

  predicate Has(t: string, c: char) {
    exists i :: 0 <= i < |t| && t[i] == c
  }

  /** What arrives later does not move the first newline. */
  lemma {:induction false} FirstStays(a: string, b: string, c: char)
    requires IndexOf(a, c) >= 0
    ensures IndexOf(a + b, c) == IndexOf(a, c)
    ensures (a + b)[..IndexOf(a, c)] == a[..IndexOf(a, c)]
    ensures (a + b)[IndexOf(a, c) + 1..] == a[IndexOf(a, c) + 1..] + b
  {
    var k, j := IndexOf(a, c), IndexOf(a + b, c);
    assert (a + b)[k] == c;
  }

  lemma {:induction false} FirstIs(line: string, rest: string, c: char)
    requires !Has(line, c)
    ensures IndexOf(line + [c] + rest, c) == |line|
    ensures (line + [c] + rest)[..|line|] == line
    ensures (line + [c] + rest)[|line| + 1..] == rest
  {
    var t := line + [c] + rest;
    var j := IndexOf(t, c);
    assert t[|line|] == c;
  }

  function Concat(chunks: seq<string>): string {
    if chunks == [] then "" else chunks[0] + Concat(chunks[1..])
  }

  /** One carriage return before the newline belongs to the line ending. */
  function Chomp(line: string): string {
    if line != "" && line[|line| - 1] == '\r' then line[..|line| - 1] else line
  }

  /** White space and line terminators, as `trim` knows them. */
  predicate IsSpace(c: char) {
    || '\t' <= c <= '\r' || c == ' ' || c == '\U{00A0}' || c == '\U{1680}' || '\U{2000}' <= c <= '\U{200A}'
    || c == '\U{2028}' || c == '\U{2029}' || c == '\U{202F}' || c == '\U{205F}' || c == '\U{3000}' || c == '\U{FEFF}'
  }

  function TrimStart(t: string): string {
    if t != "" && IsSpace(t[0]) then TrimStart(t[1..]) else t
  }

  function TrimEnd(t: string): string {
    if t != "" && IsSpace(t[|t| - 1]) then TrimEnd(t[..|t| - 1]) else t
  }

  function Trim(t: string): string {
    TrimEnd(TrimStart(t))
  }

  predicate AllSpace(t: string) {
    forall i :: 0 <= i < |t| ==> IsSpace(t[i])
  }

  /** Trimming takes away white space at both ends, and all of it. */
  lemma {:induction false} TrimIs(t: string) returns (before: string, behind: string)
    ensures t == before + Trim(t) + behind && AllSpace(before) && AllSpace(behind)
    ensures Trim(t) != "" ==> !IsSpace(Trim(t)[0]) && !IsSpace(Trim(t)[|Trim(t)| - 1])
  {
    before := TrimStartIs(t);
    behind := TrimEndIs(TrimStart(t));
  }

  lemma {:induction false} TrimStartIs(t: string) returns (before: string)
    ensures t == before + TrimStart(t) && AllSpace(before) && (TrimStart(t) != "" ==> !IsSpace(TrimStart(t)[0]))
  {
    before := "";
    if t != "" && IsSpace(t[0]) {
      before := TrimStartIs(t[1..]);
      before := [t[0]] + before;
    }
  }

  lemma {:induction false} TrimEndIs(t: string) returns (behind: string)
    ensures t == TrimEnd(t) + behind && AllSpace(behind)
    ensures TrimEnd(t) != "" ==> !IsSpace(TrimEnd(t)[|TrimEnd(t)| - 1])
  {
    behind := "";
    if t != "" && IsSpace(t[|t| - 1]) {
      behind := TrimEndIs(t[..|t| - 1]);
      behind := behind + [t[|t| - 1]];
    }
  }

  predicate StartsWith(t: string, prefix: string) {
    prefix <= t
  }

  // ---------------------------------------------------------------------
  // The loop all three parsers share
  // ---------------------------------------------------------------------

  /** What a parser does with one complete line, and when it stops looking at lines. */
  datatype Machine<!S> = Machine(step: (S, string) -> S, stopped: S -> bool)

  /** The complete lines of a text, until the machine stops, and the text left over. */
  function Lines<S>(s: S, t: string, m: Machine<S>): (S, string)
    decreases |t|
  {
    var k := IndexOf(t, '\n');
    if m.stopped(s) || k < 0 then (s, t) else Lines(m.step(s, t[..k]), t[k + 1..], m)
  }

  /** The chunk loop: the final state, and what it has left in its buffer. */
  function Run<S>(s: S, buffer: string, chunks: seq<string>, m: Machine<S>): (S, string)
    decreases |chunks|
  {
    if chunks == [] then (s, buffer)
    else
      var next := Lines(s, buffer + chunks[0], m);
      if m.stopped(next.0) then next else Run(next.0, next.1, chunks[1..], m)
  }

  method TakeLines<S>(s: S, buffer: string, m: Machine<S>) returns (s': S, buffer': string)
    ensures (s', buffer') == Lines(s, buffer, m)
  {
    s', buffer' := s, buffer;
    var newline := IndexOf(buffer', '\n');
    while newline >= 0 && !m.stopped(s')
      invariant newline == IndexOf(buffer', '\n')
      invariant Lines(s', buffer', m) == Lines(s, buffer, m)
      decreases |buffer'|
    {
      s' := m.step(s', buffer'[..newline]);
      buffer' := buffer'[newline + 1..];
      newline := IndexOf(buffer', '\n');
    }
  }

  method Feed<S>(s: S, chunks: seq<string>, m: Machine<S>) returns (s': S, buffer: string)
    requires !m.stopped(s)
    ensures (s', buffer) == Run(s, "", chunks, m)
  {
    s', buffer := s, "";
    var i := 0;
    assert chunks[0..] == chunks;
    while i < |chunks| && !m.stopped(s')
      invariant i <= |chunks|
      invariant (if m.stopped(s') then (s', buffer) else Run(s', buffer, chunks[i..], m)) == Run(s, "", chunks, m)
    {
      assert chunks[i..][1..] == chunks[i + 1..];
      s', buffer := TakeLines(s', buffer + chunks[i], m);
      i := i + 1;
    }
  }

  lemma {:induction false} LinesUnfold<S>(s: S, t: string, line: string, rest: string, m: Machine<S>)
    requires !m.stopped(s) && IndexOf(t, '\n') >= 0
    requires line == t[..IndexOf(t, '\n')] && rest == t[IndexOf(t, '\n') + 1..]
    ensures Lines(s, t, m) == Lines(m.step(s, line), rest, m)
  {
  }

  lemma {:induction false} LinesStep<S>(s: S, a: string, b: string, m: Machine<S>)
    requires !m.stopped(s) && IndexOf(a, '\n') >= 0
    ensures var k := IndexOf(a, '\n'); Lines(s, a + b, m) == Lines(m.step(s, a[..k]), a[k + 1..] + b, m)
  {
    var k := IndexOf(a, '\n');
    FirstStays(a, b, '\n');
    LinesUnfold(s, a + b, a[..k], a[k + 1..] + b, m);
  }

  lemma {:induction false} LinesSplit<S>(s: S, a: string, b: string, m: Machine<S>)
    ensures var (q, r) := Lines(s, a, m);
      Lines(s, a + b, m) == if m.stopped(q) then (q, r + b) else Lines(q, r + b, m)
    decreases |a|
  {
    var k := IndexOf(a, '\n');
    if !m.stopped(s) && k >= 0 {
      LinesStep(s, a, b, m);
      LinesSplit(m.step(s, a[..k]), a[k + 1..], b, m);
    }
  }

  /** How a text is cut into chunks can only decide how much of the text behind the line that stopped
      the machine has been received; a machine that never stopped has received everything. */
  lemma {:induction false} RunIs<S>(s: S, buffer: string, chunks: seq<string>, m: Machine<S>)
    requires !m.stopped(s)
    ensures var (q, rest) := Lines(s, buffer + Concat(chunks), m);
      var (r, looked) := Run(s, buffer, chunks, m);
      (IndexOf(buffer, '\n') < 0 ==> r == q && looked <= rest && (!m.stopped(q) ==> looked == rest))
    decreases |chunks|
  {
    if chunks == [] {
      assert buffer + "" == buffer;
    } else {
      var (q, rest) := Lines(s, buffer + chunks[0], m);
      var more := Concat(chunks[1..]);
      LinesSplit(s, buffer + chunks[0], more, m);
      assert buffer + (chunks[0] + more) == (buffer + chunks[0]) + more;
      if !m.stopped(q) {
        LinesRest(s, buffer + chunks[0], m);
        RunIs(q, rest, chunks[1..], m);
      }
    }
  }

  lemma {:induction false} LinesRest<S>(s: S, t: string, m: Machine<S>)
    ensures !m.stopped(Lines(s, t, m).0) ==> IndexOf(Lines(s, t, m).1, '\n') < 0
    decreases |t|
  {
    var k := IndexOf(t, '\n');
    if !m.stopped(s) && k >= 0 { LinesRest(m.step(s, t[..k]), t[k + 1..], m); }
  }

  lemma {:induction false} FirstLine<S>(s: S, line: string, rest: string, m: Machine<S>)
    requires !m.stopped(s) && !Has(line, '\n')
    ensures Lines(s, line + (['\n'] + rest), m) == Lines(m.step(s, line), rest, m)
  {
    FirstIs(line, rest, '\n');
    assert line + (['\n'] + rest) == line + ['\n'] + rest;
  }

  /** Two lines and nothing behind them, when the second one stops the machine. */
  lemma {:induction false} TwoSteps<S>(s: S, a: string, b: string, m: Machine<S>)
    requires !Has(a, '\n') && !Has(b, '\n') && !m.stopped(s) && !m.stopped(m.step(s, a))
      && m.stopped(m.step(m.step(s, a), b))
    ensures Lines(s, a + (['\n'] + (b + (['\n'] + ""))), m) == (m.step(m.step(s, a), b), "")
  {
    FirstLine(s, a, b + (['\n'] + ""), m);
    FirstLine(m.step(s, a), b, "", m);
  }

  lemma {:induction false} Regroup(line: string, h: string, r: string)
    ensures (line + (['\n'] + h)) + r == line + (['\n'] + (h + r))
  {
  }

  lemma {:induction false} SplitAt(t: string, k: nat)
    requires k < |t| && t[k] == '\n'
    ensures t == t[..k] + (['\n'] + t[k + 1..])
  {
  }

  /** What every step keeps, the whole loop keeps. */
  lemma {:induction false} LinesInvariant<S>(s: S, t: string, m: Machine<S>, inv: S -> bool)
    requires inv(s) && forall q, line :: inv(q) ==> inv(m.step(q, line))
    ensures inv(Lines(s, t, m).0)
    decreases |t|
  {
    var k := IndexOf(t, '\n');
    if !m.stopped(s) && k >= 0 { LinesInvariant(m.step(s, t[..k]), t[k + 1..], m, inv); }
  }

  /** The text behind the stop may be replaced by any other text. */
  lemma {:induction false} LinesUsed<S>(s: S, t: string, m: Machine<S>, r: string) returns (head: string)
    requires m.stopped(Lines(s, t, m).0)
    ensures head + Lines(s, t, m).1 == t
    ensures Lines(s, head + r, m) == (Lines(s, t, m).0, r)
    decreases |t|
  {
    if m.stopped(s) {
      head := "";
      assert "" + r == r;
    } else {
      var k := IndexOf(t, '\n');
      var line, more := t[..k], t[k + 1..];
      var h := LinesUsed(m.step(s, line), more, m, r);
      head := line + (['\n'] + h);
      SplitAt(t, k);
      Regroup(line, h, r);
      Regroup(line, h, Lines(s, t, m).1);
      FirstLine(s, line, h + r, m);
    }
  }

  /** Every prefix of the text behind the stop is what some division into chunks leaves in the buffer. */
  lemma {:induction false} Cut<S>(s: S, text: string, looked: string, m: Machine<S>) returns (chunks: seq<string>)
    requires !m.stopped(s) && m.stopped(Lines(s, text, m).0) && looked <= Lines(s, text, m).1
    ensures Concat(chunks) == text && Run(s, "", chunks, m) == (Lines(s, text, m).0, looked)
  {
    var rest := Lines(s, text, m).1;
    var head := LinesUsed(s, text, m, looked);
    chunks := [head + looked, rest[|looked|..]];
    TwoChunks(head, looked, rest);
    assert "" + (head + looked) == head + looked;
  }

  lemma {:induction false} TwoChunks(head: string, looked: string, rest: string)
    requires looked <= rest
    ensures Concat([head + looked, rest[|looked|..]]) == head + rest
  {
    var a, b := head + looked, rest[|looked|..];
    assert [a, b][1..] == [b] && Concat([b]) == b + Concat([b][1..]) == b;
    assert looked + b == rest && a + b == head + (looked + b);
  }

  // ---------------------------------------------------------------------
  // Printed lines
  // ---------------------------------------------------------------------

  function PrintLines(lines: seq<string>): string {
    if lines == [] then "" else lines[0] + ("\n" + PrintLines(lines[1..]))
  }

  predicate NoBreaks(lines: seq<string>) {
    forall i :: 0 <= i < |lines| ==> !Has(lines[i], '\n')
  }

  function StepAll<S>(s: S, lines: seq<string>, m: Machine<S>): S
    decreases |lines|
  {
    if lines == [] || m.stopped(s) then s else StepAll(m.step(s, lines[0]), lines[1..], m)
  }

  /** Splitting a printed text gives the lines back, one step each. */
  lemma {:induction false} LinesPrinted<S>(s: S, lines: seq<string>, rest: string, m: Machine<S>)
    requires NoBreaks(lines) && !m.stopped(StepAll(s, lines, m))
    ensures Lines(s, PrintLines(lines) + rest, m) == Lines(StepAll(s, lines, m), rest, m)
    decreases |lines|
  {
    if lines == [] {
      assert "" + rest == rest;
    } else {
      var l, t := lines[0], PrintLines(lines[1..]);
      FirstLine(s, l, t + rest, m);
      Regroup(l, t, rest);
      LinesPrinted(m.step(s, l), lines[1..], rest, m);
    }
  }
}
