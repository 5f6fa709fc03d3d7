/** The vocabulary of a stored session log, as far as import, preview, continuation and receipts read it. */
module SessionLog {
  import opened Options

  datatype Record =
    | TurnStart(turn: Option<nat>)                       // `None`: the payload has no valid turn number
    | TurnEnd(endTurn: Option<nat>, completed: bool)
    | StepStart(inTurn: nat, step: nat)
    | StepEnd(ofTurn: nat, endStep: nat)
    | UserMessage(text: string, fromUser: bool, rpcId: Option<string>, atTurn: Option<int>)
    | AssistantMessage(reply: string, model: string)
    | HistoryRecord(item: int)                           // cyrene/import-history
    | ImportMarker(digest: string)                       // cyrene/import
    | EndSeed                                            // session/end-seed
    | OtherRecord

  datatype LogEvent = LogEvent(number: nat, record: Record)

  function RecordsOf(events: seq<LogEvent>): (r: seq<Record>)
    ensures |r| == |events|
  {
    if events == [] then [] else [events[0].record] + RecordsOf(events[1..])
  }

  lemma {:induction false} RecordsConcat(a: seq<LogEvent>, b: seq<LogEvent>)
    ensures RecordsOf(a + b) == RecordsOf(a) + RecordsOf(b)
  {
    if a == [] {
      assert a + b == b;
    } else {
      RecordsConcat(a[1..], b);
      assert (a + b)[1..] == a[1..] + b;
      assert [a[0].record] + (RecordsOf(a[1..]) + RecordsOf(b)) == ([a[0].record] + RecordsOf(a[1..])) + RecordsOf(b);
    }
  }

  lemma {:induction false} RecordAt(events: seq<LogEvent>, i: nat)
    requires i < |events|
    ensures RecordsOf(events)[i] == events[i].record
  {
    if i > 0 { RecordAt(events[1..], i - 1); }
  }

  function NumberAt(events: seq<LogEvent>, i: nat): nat
    requires i < |events|
  {
    events[i].number
  }

  /** Sequence numbers 0, 1, 2, … */
  predicate Numbered(events: seq<LogEvent>) {
    forall i: nat :: i < |events| ==> NumberAt(events, i) == i
  }
}
