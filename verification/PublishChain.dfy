/**
 A task's publish chain: events are appended one after the other, each with at
 most one repetition under the same message id, and passed on to subscribers
 once stored. A request may reach the store at any time after it was sent, also
 after its sender has given up.
 */
module PublishChain {
  import opened Options

  /** `id` is the message id of this chain's n-th event; entries of others have none. */
  datatype Entry = Entry(event: int, id: Option<nat>)

  datatype Delivered = Delivered(event: int, number: nat)

  /** `done` events were stored and passed on; `tries` requests for the next one have been sent.
      `failed` is `eventFailure`: everything behind it is skipped. */
  datatype Chain = Chain(published: seq<int>, log: seq<Entry>, done: nat, tries: nat, failed: bool,
                         delivered: seq<Delivered>)

  datatype Step =
    | Publish(event: int)
    | SendNext                  // the next link of the chain starts
    | Arrive(id: nat)           // the store processes a request
    | Foreign(event: int)       // somebody else appends to the same task
    | ReplyOk
    | ServerError               // no reply, or a status of 500 and above: one more try
    | ClientError               // a status below 500

  function Initial(): Chain {
    Chain([], [], 0, 0, false, [])
  }

  predicate WasSent(c: Chain, id: nat) {
    id < c.done || (id == c.done && c.tries > 0)
  }

  /** Where the event with this id is stored. */
  function Position(log: seq<Entry>, id: nat): Option<nat> {
    if log == [] then None
    else if log[|log| - 1].id == Some(id) then Some(|log| - 1) else Position(log[..|log| - 1], id)
  }

  function Next(c: Chain, s: Step): Chain {
    match s
    case Publish(e) => c.(published := c.published + [e])
    case SendNext => if c.tries > 0 || c.failed || c.done >= |c.published| then c else c.(tries := 1)
    case Arrive(id) =>
      // The message id makes the append idempotent.
      if !WasSent(c, id) || id >= |c.published| || Position(c.log, id).Some? then c
      else c.(log := c.log + [Entry(c.published[id], Some(id))])
    case Foreign(e) => c.(log := c.log + [Entry(e, None)])
    case ReplyOk =>
      if c.tries == 0 || c.failed || c.done >= |c.published| || Position(c.log, c.done).None? then c
      else c.(done := c.done + 1, tries := 0,
              delivered := c.delivered + [Delivered(c.published[c.done], Position(c.log, c.done).value)])
    case ServerError =>
      if c.tries == 0 || c.failed then c else if c.tries == 1 then c.(tries := 2) else c.(failed := true)
    case ClientError => if c.tries == 0 || c.failed then c else c.(failed := true)
  }

  function Run(c: Chain, ss: seq<Step>): Chain {
    if ss == [] then c else Next(Run(c, ss[..|ss| - 1]), ss[|ss| - 1])
  }

  // ---------------------------------------------------------------------
  // Invariant
  // ---------------------------------------------------------------------

  /** The events of this chain in the store, in stored order. */
  function Mine(log: seq<Entry>): seq<int> {
    if log == [] then [] else Mine(log[..|log| - 1]) + (if log[|log| - 1].id.Some? then [log[|log| - 1].event] else [])
  }

  /** The ids of this chain's entries are 0, 1, 2, … in stored order. */
  predicate IdsInOrder(log: seq<Entry>) {
    log == [] ||
    (IdsInOrder(log[..|log| - 1]) && (log[|log| - 1].id.Some? ==> log[|log| - 1].id.value == |Mine(log[..|log| - 1])|))
  }

  function NumberAt(ds: seq<Delivered>, i: nat): nat
    requires i < |ds|
  {
    ds[i].number
  }

  ghost predicate DeliveredOk(c: Chain) {
    && |c.delivered| == c.done
    && (forall i: nat :: i < c.done ==>
          NumberAt(c.delivered, i) < |c.log| && c.log[NumberAt(c.delivered, i)] == Entry(c.delivered[i].event, Some(i)))
    && (forall i: nat, j: nat :: i < j < c.done ==> NumberAt(c.delivered, i) < NumberAt(c.delivered, j))
  }

  ghost predicate Inv(c: Chain) {
    && IdsInOrder(c.log)
    && Mine(c.log) <= c.published
    && c.done <= |Mine(c.log)| <= c.done + 1
    && (|Mine(c.log)| == c.done + 1 ==> c.tries > 0)
    && (c.tries > 0 ==> c.done < |c.published|)
    && c.tries <= 2
    && (c.failed ==> c.tries > 0)
    && DeliveredOk(c)
  }

  /** A log in order holds exactly the ids below the number of its own entries. */
  lemma {:induction false} PositionIs(log: seq<Entry>, id: nat)
    requires IdsInOrder(log)
    ensures Position(log, id).Some? <==> id < |Mine(log)|
    ensures Position(log, id).Some? ==>
      var p := Position(log, id).value; p < |log| && log[p] == Entry(Mine(log)[id], Some(id))
  {
    if log != [] { PositionIs(log[..|log| - 1], id); }
  }

  /** Positions follow the ids. */
  lemma {:induction false} PositionsAscend(log: seq<Entry>, i: nat, p: nat, id: nat)
    requires IdsInOrder(log) && p < |log| && log[p].id == Some(i) && i < id && Position(log, id).Some?
    ensures p < Position(log, id).value
  {
    var init := log[..|log| - 1];
    if log[|log| - 1].id == Some(id) {
      assert p != |log| - 1;
    } else {
      PositionIs(log, id);
      PositionIs(init, id);
      if p < |log| - 1 { PositionsAscend(init, i, p, id); }
    }
  }

  lemma {:induction false} MineNext(log: seq<Entry>, e: Entry)
    ensures Mine(log + [e]) == Mine(log) + (if e.id.Some? then [e.event] else [])
    ensures IdsInOrder(log + [e]) <==> IdsInOrder(log) && (e.id.Some? ==> e.id.value == |Mine(log)|)
  {
    assert (log + [e])[..|log|] == log;
  }

  lemma {:induction false} StoreKeeps(c: Chain, e: Entry)
    requires Inv(c)
    requires e.id.Some? ==>
      e.id.value == |Mine(c.log)| == c.done < |c.published| && c.tries > 0 && e.event == c.published[c.done]
    ensures Inv(c.(log := c.log + [e]))
  {
    MineNext(c.log, e);
    assert Mine(c.log) + [] == Mine(c.log);
    if e.id.Some? { assert c.published[..c.done] + [c.published[c.done]] == c.published[..c.done + 1]; }
  }

  lemma {:induction false} ReplyKeeps(c: Chain)
    requires Inv(c)
    ensures Inv(Next(c, ReplyOk))
  {
    PositionIs(c.log, c.done);
    var c' := Next(c, ReplyOk);
    if c' != c {
      var p := Position(c.log, c.done).value;
      forall i: nat | i < c.done ensures NumberAt(c.delivered, i) < p {
        PositionsAscend(c.log, i, NumberAt(c.delivered, i), c.done);
      }
      forall i: nat | i < c'.done ensures NumberAt(c'.delivered, i) < |c.log|
        && c.log[NumberAt(c'.delivered, i)] == Entry(c'.delivered[i].event, Some(i)) {
        if i < c.done { assert NumberAt(c'.delivered, i) == NumberAt(c.delivered, i); }
      }
      forall i: nat, j: nat | i < j < c'.done ensures NumberAt(c'.delivered, i) < NumberAt(c'.delivered, j) {
        assert NumberAt(c'.delivered, i) == NumberAt(c.delivered, i);
        if j < c.done { assert NumberAt(c'.delivered, j) == NumberAt(c.delivered, j); }
      }
    }
  }

  lemma {:induction false} ArriveKeeps(c: Chain, id: nat)
    requires Inv(c)
    ensures Inv(Next(c, Arrive(id)))
  {
    if id < |c.published| {
      PositionIs(c.log, id);
      if WasSent(c, id) && Position(c.log, id).None? { StoreKeeps(c, Entry(c.published[id], Some(id))); }
    }
  }

  lemma {:induction false} NextKeeps(c: Chain, s: Step)
    requires Inv(c)
    ensures Inv(Next(c, s)) && c.log <= Next(c, s).log && c.delivered <= Next(c, s).delivered
      && c.published <= Next(c, s).published
  {
    match s
    case Arrive(id) => ArriveKeeps(c, id);
    case Foreign(e) => StoreKeeps(c, Entry(e, None));
    case ReplyOk => ReplyKeeps(c);
    case _ =>
  }

  lemma {:induction false} RunKeeps(c: Chain, ss: seq<Step>)
    requires Inv(c)
    ensures var c' := Run(c, ss);
      Inv(c') && c.log <= c'.log && c.delivered <= c'.delivered && c.published <= c'.published
  {
    if ss != [] {
      RunKeeps(c, ss[..|ss| - 1]);
      NextKeeps(Run(c, ss[..|ss| - 1]), ss[|ss| - 1]);
    }
  }

  /** After every run: what the store holds of this chain is a prefix of what was published, in order and
      each event once; a subscriber attached from the start has seen exactly that prefix with its stored
      numbers, in ascending order, but for the last event if its reply has not come back. */
  lemma {:induction false} StoredIsPrefix(ss: seq<Step>)
    ensures var c := Run(Initial(), ss);
      && Mine(c.log) <= c.published
      && |c.delivered| <= |Mine(c.log)| <= |c.delivered| + 1
      && (|Mine(c.log)| == |c.delivered| + 1 <==> Position(c.log, |c.delivered|).Some?)
      && (forall i: nat :: i < |c.delivered| ==>
            NumberAt(c.delivered, i) < |c.log| && c.log[NumberAt(c.delivered, i)] == Entry(c.published[i], Some(i))
            && c.delivered[i].event == c.published[i])
      && (forall i: nat, j: nat :: i < j < |c.delivered| ==> NumberAt(c.delivered, i) < NumberAt(c.delivered, j))
  {
    RunKeeps(Initial(), ss);
    var c := Run(Initial(), ss);
    PositionIs(c.log, c.done);
    forall i: nat | i < |c.delivered| ensures c.delivered[i].event == c.published[i] {
      var p := NumberAt(c.delivered, i);
      assert c.log[p].id == Some(i);
      EntryIs(c.log, p, i);
    }
  }

  lemma {:induction false} EntryIs(log: seq<Entry>, p: nat, i: nat)
    requires IdsInOrder(log) && p < |log| && log[p].id == Some(i)
    ensures i < |Mine(log)| && log[p].event == Mine(log)[i]
  {
    if p < |log| - 1 { EntryIs(log[..|log| - 1], p, i); }
  }

  /** After the first failed append nothing more is passed on, and at most the failed event itself can
      still turn up in the store, from a request that was under way. */
  lemma {:induction false} NothingAfterFailure(c: Chain, ss: seq<Step>)
    requires Inv(c) && c.failed
    ensures var c' := Run(c, ss);
      c'.failed && c'.delivered == c.delivered && c'.done == c.done && |Mine(c'.log)| <= c.done + 1
  {
    if ss != [] {
      NothingAfterFailure(c, ss[..|ss| - 1]);
    }
    RunKeeps(c, ss);
  }

  // ---------------------------------------------------------------------
  // Giving up, and getting through
  // ---------------------------------------------------------------------

  lemma {:induction false} RunTwo(c: Chain, a: seq<Step>, s: Step)
    ensures Run(c, a + [s]) == Next(Run(c, a), s)
  {
    assert (a + [s])[..|a|] == a;
  }

  lemma {:induction false} NextFailsIff(c: Chain, s: Step)
    requires Inv(c)
    ensures Next(c, s).failed <==> c.failed || (c.tries > 0 && (s == ClientError || (s == ServerError && c.tries == 2)))
    ensures !c.failed && s == ServerError && c.tries == 1 ==> Next(c, s) == c.(tries := 2)
    ensures c.failed ==> Next(c, s).delivered == c.delivered
  {
  }

  /** The chain fails at this step iff a request is outstanding and its answer is a client error, or no answer for
      the second time; the first missing answer only repeats the request. */
  lemma {:induction false} FailsIff(ss: seq<Step>, s: Step)
    ensures var c := Run(Initial(), ss);
      var c' := Run(Initial(), ss + [s]);
      && (c'.failed <==> c.failed || (c.tries > 0 && (s == ClientError || (s == ServerError && c.tries == 2))))
      && (!c.failed && s == ServerError && c.tries == 1 ==> c' == c.(tries := 2))
      && (c.failed ==> c'.delivered == c.delivered)
  {
    RunKeeps(Initial(), ss);
    RunTwo(Initial(), ss, s);
    NextFailsIff(Run(Initial(), ss), s);
  }

  /** A request for the next event that arrives is stored, now if it was not before. */
  lemma {:induction false} ArriveStores(c: Chain)
    requires Inv(c) && c.tries > 0 && !c.failed
    ensures Position(Next(c, Arrive(c.done)).log, c.done).Some?
  {
    PositionIs(c.log, c.done);
  }

  lemma {:induction false} ThreeSteps(c: Chain) returns (c': Chain)
    requires Inv(c) && !c.failed && c.done < |c.published|
    ensures c' == Next(Next(Next(c, SendNext), Arrive(c.done)), ReplyOk)
    ensures c'.done == c.done + 1 && !c'.failed && c'.published == c.published
    ensures |c'.delivered| == |c.delivered| + 1 && c'.delivered[|c.delivered|].event == c.published[c.done]
  {
    var c1 := Next(c, SendNext);
    NextKeeps(c, SendNext);
    ArriveStores(c1);
    c' := Next(Next(c1, Arrive(c.done)), ReplyOk);
  }

  /** From every reachable state that has not failed and has something left to publish: the next event is sent if
      it was not, and once the store has it and its reply comes back, it is passed on. */
  lemma {:induction false} GetsThrough(ss: seq<Step>)
    requires var c := Run(Initial(), ss); !c.failed && c.done < |c.published|
    ensures var c := Run(Initial(), ss);
      var c' := Run(Initial(), ss + [SendNext] + [Arrive(c.done)] + [ReplyOk]);
      && c'.done == c.done + 1 && !c'.failed && c'.published == c.published
      && |c'.delivered| == |c.delivered| + 1
      && c'.delivered[|c.delivered|].event == c.published[c.done]
  {
    var c := Run(Initial(), ss);
    RunKeeps(Initial(), ss);
    var c' := ThreeSteps(c);
    RunTwo(Initial(), ss, SendNext);
    RunTwo(Initial(), ss + [SendNext], Arrive(c.done));
    RunTwo(Initial(), ss + [SendNext] + [Arrive(c.done)], ReplyOk);
  }
}
