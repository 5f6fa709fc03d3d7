/**
 Which turn each imported message ends up in, and what follows the turns, read
 off the log alone.
 */
module CodexTurns {
  import opened Options
  import opened SessionLog
  import opened CodexImport

  predicate IsMessage(r: Record) {
    r.UserMessage? || r.AssistantMessage?
  }

  /** The turn that is open behind these records, if `turn` was before them. */
  function Current(rs: seq<Record>, turn: nat): nat {
    if rs == [] then turn
    else Current(rs[1..], if rs[0].TurnStart? && rs[0].turn.Some? then rs[0].turn.value else turn)
  }

  /** For every message of a log, the number of the turn that was started last. */
  function TurnOfEach(rs: seq<Record>, turn: nat): seq<nat> {
    if rs == [] then []
    else if rs[0].TurnStart? && rs[0].turn.Some? then TurnOfEach(rs[1..], rs[0].turn.value)
    else if IsMessage(rs[0]) then [turn] + TurnOfEach(rs[1..], turn)
    else TurnOfEach(rs[1..], turn)
  }

  lemma {:induction false} EachConcat(a: seq<Record>, b: seq<Record>, turn: nat)
    ensures TurnOfEach(a + b, turn) == TurnOfEach(a, turn) + TurnOfEach(b, Current(a, turn))
    ensures Current(a + b, turn) == Current(b, Current(a, turn))
    decreases |a|
  {
    if a == [] {
      assert a + b == b;
    } else {
      var now := if a[0].TurnStart? && a[0].turn.Some? then a[0].turn.value else turn;
      EachConcat(a[1..], b, now);
      assert (a + b)[1..] == a[1..] + b;
    }
  }

  lemma {:induction false} EachOne(r: Record, turn: nat)
    ensures TurnOfEach([r], turn) == if IsMessage(r) then [turn] else []
    ensures Current([r], turn) == if r.TurnStart? && r.turn.Some? then r.turn.value else turn
  {
    assert [r][1..] == [];
  }

  lemma {:induction false} EachOpening(n: nat, turn: nat)
    ensures TurnOfEach(Opening(n), turn) == [] && Current(Opening(n), turn) == n
  {
    EachConcat([TurnStart(Some(n))], [StepStart(n, 1)], turn);
    EachOne(TurnStart(Some(n)), turn);
    EachOne(StepStart(n, 1), n);
    assert [TurnStart(Some(n))] + [StepStart(n, 1)] == Opening(n);
  }

  lemma {:induction false} EachEnding(n: nat, turn: nat)
    ensures TurnOfEach(Ending(n), turn) == [] && Current(Ending(n), turn) == turn
  {
    EachConcat([StepEnd(n, 1)], [TurnEnd(Some(n), true)], turn);
    EachOne(StepEnd(n, 1), turn);
    EachOne(TurnEnd(Some(n), true), turn);
    assert [StepEnd(n, 1)] + [TurnEnd(Some(n), true)] == Ending(n);
  }

  lemma {:induction false} EachBody(t: Turn, turn: nat)
    ensures TurnOfEach(Body(t), turn)
      == (if t.user.Some? then [turn] else []) + (if t.assistant.Some? then [turn] else [])
    ensures Current(Body(t), turn) == turn
  {
    var u := if t.user.Some? then [UserRecord(t.user.value)] else [];
    var a := if t.assistant.Some? then [AssistantRecord(t.assistant.value)] else [];
    EachConcat(u, a, turn);
    if t.user.Some? { EachOne(UserRecord(t.user.value), turn); }
    if t.assistant.Some? { EachOne(AssistantRecord(t.assistant.value), turn); }
  }

  lemma {:induction false} EachTurn(t: Turn, n: nat, turn: nat)
    ensures TurnOfEach(TurnRecords(t, n), turn)
      == (if t.user.Some? then [n] else []) + (if t.assistant.Some? then [n] else [])
    ensures Current(TurnRecords(t, n), turn) == n
  {
    EachConcat(Opening(n), Body(t) + Ending(n), turn);
    EachConcat(Body(t), Ending(n), n);
    EachOpening(n, turn);
    EachBody(t, n);
    EachEnding(n, n);
  }

  function NumberOf(ts: seq<nat>, i: nat): nat
    requires i < |ts|
  {
    ts[i]
  }

  /** The turn numbers `ts` of the messages `ms`: a reply right behind a user message stays in its turn, and
      every other message opens the next one. */
  ghost predicate Grouped(ms: seq<Message>, ts: seq<nat>, first: nat) {
    && |ts| == |ms|
    && (ms != [] ==> NumberOf(ts, 0) == first)
    && forall i: nat :: i + 1 < |ms| ==>
        NumberOf(ts, i + 1) == NumberOf(ts, i) + if ms[i].role == User && ms[i + 1].role == Assistant then 0 else 1
  }

  lemma {:induction false} GroupedPair(ms: seq<Message>, ts: seq<nat>, n: nat)
    requires |ms| >= 2 && ms[0].role == User && ms[1].role == Assistant && Grouped(ms[2..], ts, n + 1)
    ensures Grouped(ms, [n, n] + ts, n)
  {
    var all := [n, n] + ts;
    forall i: nat | i + 1 < |ms|
      ensures NumberOf(all, i + 1)
        == NumberOf(all, i) + if ms[i].role == User && ms[i + 1].role == Assistant then 0 else 1
    {
      if i >= 2 {
        assert NumberOf(all, i) == NumberOf(ts, i - 2) && NumberOf(all, i + 1) == NumberOf(ts, i - 1);
        assert ms[i] == ms[2..][i - 2] && ms[i + 1] == ms[2..][i - 1];
        assert (i - 2) + 1 == i - 1;
      } else if i == 1 {
        assert NumberOf(ts, 0) == n + 1 && NumberOf(all, 2) == NumberOf(ts, 0);
      }
    }
  }

  lemma {:induction false} GroupedSingle(ms: seq<Message>, ts: seq<nat>, n: nat)
    requires ms != [] && !(|ms| >= 2 && ms[0].role == User && ms[1].role == Assistant) && Grouped(ms[1..], ts, n + 1)
    ensures Grouped(ms, [n] + ts, n)
  {
    var all := [n] + ts;
    forall i: nat | i + 1 < |ms|
      ensures NumberOf(all, i + 1)
        == NumberOf(all, i) + if ms[i].role == User && ms[i + 1].role == Assistant then 0 else 1
    {
      if i >= 1 {
        assert NumberOf(all, i) == NumberOf(ts, i - 1) && NumberOf(all, i + 1) == NumberOf(ts, i);
        assert ms[i] == ms[1..][i - 1] && ms[i + 1] == ms[1..][i];
        assert (i - 1) + 1 == i;
      } else {
        assert NumberOf(ts, 0) == n + 1 && NumberOf(all, 1) == NumberOf(ts, 0);
      }
    }
  }

  lemma {:induction false} EachRegion(t: Turn, rest: seq<Turn>, n: nat, turn: nat)
    ensures TurnOfEach(Region([t] + rest, n), turn) == ((if t.user.Some? then [n] else [])
      + (if t.assistant.Some? then [n] else [])) + TurnOfEach(Region(rest, n + 1), n)
  {
    assert ([t] + rest)[1..] == rest;
    EachConcat(TurnRecords(t, n), Region(rest, n + 1), turn);
    EachTurn(t, n, turn);
  }

  lemma {:induction false} RegionGroups(ms: seq<Message>, n: nat, turn: nat)
    ensures Grouped(ms, TurnOfEach(Region(Turns(ms), n), turn), n)
    decreases |ms|
  {
    if |ms| >= 2 && ms[0].role == User && ms[1].role == Assistant {
      EachRegion(Turn(Some(ms[0]), Some(ms[1])), Turns(ms[2..]), n, turn);
      RegionGroups(ms[2..], n + 1, n);
      GroupedPair(ms, TurnOfEach(Region(Turns(ms[2..]), n + 1), n), n);
      assert [n] + [n] == [n, n];
    } else if ms != [] {
      var t := if ms[0].role == User then Turn(Some(ms[0]), None) else Turn(None, Some(ms[0]));
      EachRegion(t, Turns(ms[1..]), n, turn);
      RegionGroups(ms[1..], n + 1, n);
      GroupedSingle(ms, TurnOfEach(Region(Turns(ms[1..]), n + 1), n), n);
      assert [n] + [] == [n] && [] + [n] == [n];
    }
  }

  lemma {:induction false} EachSilent(rs: seq<Record>, turn: nat)
    requires forall i :: 0 <= i < |rs| ==> !IsMessage(rs[i])
    ensures TurnOfEach(rs, turn) == []
    decreases |rs|
  {
    if rs != [] {
      EachSilent(rs[1..], if rs[0].TurnStart? && rs[0].turn.Some? then rs[0].turn.value else turn);
    }
  }

  /** In the whole imported log: the first message is in turn 1, a reply right behind a user message is in its
      turn, and every other message is in the next one. */
  lemma {:induction false} ImportGroups(ms: seq<Message>, items: seq<int>, digest: string)
    ensures Grouped(ms, TurnOfEach(Imported(ms, items, digest), 0), 1)
  {
    var region, tail := Region(Turns(ms), 1), Tail(items, digest);
    HistoriesHaveNoEnd(items);
    EachConcat(region, tail, 0);
    EachSilent(tail, Current(region, 0));
    RegionGroups(ms, 1, 0);
    assert TurnOfEach(region, 0) + [] == TurnOfEach(region, 0);
  }

  lemma {:induction false} RegionHasNoImportRecord(ts: seq<Turn>, n: nat)
    ensures forall i :: 0 <= i < |Region(ts, n)| ==>
      !Region(ts, n)[i].HistoryRecord? && !Region(ts, n)[i].ImportMarker? && Region(ts, n)[i] != EndSeed
  {
    if ts != [] { RegionHasNoImportRecord(ts[1..], n + 1); }
  }

  /** The log ends with the history in order, one marker and the end of the seed, and holds no other record of
      these kinds. */
  lemma {:induction false} ImportEnds(ms: seq<Message>, items: seq<int>, digest: string)
    ensures var rs := Imported(ms, items, digest);
      var k := |rs| - 2 - |items|;
      && k >= 0 && rs[|rs| - 1] == EndSeed && rs[|rs| - 2] == ImportMarker(digest)
      && (forall i :: 0 <= i < |items| ==> rs[k + i] == HistoryRecord(items[i]))
      && forall i :: 0 <= i < k ==> !rs[i].HistoryRecord? && !rs[i].ImportMarker? && rs[i] != EndSeed
  {
    var region, rs := Region(Turns(ms), 1), Imported(ms, items, digest);
    RegionHasNoImportRecord(Turns(ms), 1);
    HistoriesAre(items);
    assert rs == (region + Histories(items)) + [ImportMarker(digest), EndSeed];
    forall i | 0 <= i < |items| ensures rs[|region| + i] == HistoryRecord(items[i]) {
      assert rs[|region| + i] == Histories(items)[i];
    }
  }

  lemma {:induction false} HistoriesAre(items: seq<int>)
    ensures |Histories(items)| == |items|
    ensures forall i :: 0 <= i < |items| ==> Histories(items)[i] == HistoryRecord(items[i])
  {
    if items != [] {
      HistoriesAre(items[1..]);
      forall i | 0 < i < |items| ensures Histories(items)[i] == HistoryRecord(items[i]) {
        assert Histories(items)[i] == Histories(items[1..])[i - 1];
      }
    }
  }
}
