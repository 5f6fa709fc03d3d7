/**
 What the backend answers, spelled out on the stored row, and what a whole
 sequence of requests amounts to: the writer is the last one opened, the epoch
 counts the openings and releases, and the log is the accepted batches.
 */
module StoreLaws {
  import opened Options
  import opened SessionStore

  // ---------------------------------------------------------------------
  // One request
  // ---------------------------------------------------------------------

  /** A write open is granted iff nobody owns the session and no other epoch was expected, or the expected epoch
      is the current one and the owner is the same actor or may be taken over. The first failing condition is the
      one reported. */
  lemma {:induction false} OpenIff(s: Store, actor: int, canTakeover: bool, expected: Option<nat>, token: int)
    ensures var r := OpenWriter(s, actor, canTakeover, expected, token);
      && (r.Ok? <==>
            || (s.owner == None && (expected == None || expected == Some(s.epoch)))
            || (s.owner != None && expected == Some(s.epoch) && (s.owner.value.actor == actor || canTakeover)))
      && (r == Err(AlreadyOwned) <==> s.owner != None && expected == None)
      && (r == Err(Forbidden) <==>
            s.owner != None && expected == Some(s.epoch) && s.owner.value.actor != actor && !canTakeover)
      && (r.Err? && r.error != AlreadyOwned && r.error != Forbidden ==> r.error == OwnershipLost)
      && (r.Ok? ==>
            && r.value.owner == Some(Owner(actor, token)) && r.value.epoch == s.epoch + 1
            && r.value.log == s.log && r.value.receipts == s.receipts)
  {
  }

  /** The caller is the owner by actor, token and epoch, and the lease has not run out. */
  predicate Owns(s: Store, actor: int, token: int, epoch: nat, live: bool) {
    s.owner.Some? && s.owner.value.actor == actor && s.owner.value.token == token && s.epoch == epoch && live
  }

  /** Only the owner appends, confirms and releases, and a release it asks for is never refused. */
  lemma {:induction false} OwnerOnly(s: Store, actor: int, token: int, epoch: nat, live: bool, id: Batch, events: Batch)
    ensures Append(s, actor, token, epoch, live, id, events).Ok? ==> Owns(s, actor, token, epoch, live)
    ensures Confirm(s, actor, token, epoch, live) ==
      if Owns(s, actor, token, epoch, live) then Ok(|s.log|) else Err(OwnershipLost)
    ensures var r := ReleaseOwner(s, actor, token, epoch, live);
      && (r.Ok? <==> Owns(s, actor, token, epoch, live))
      && (r.Ok? ==> r.value.owner == None && r.value.epoch == s.epoch + 1 && r.value.log == s.log)
  {
  }

  /** A batch that the owner sends is stored iff its id is new in this epoch and its events are numbered on from
      the end of the log; it is answered again iff its id is known with the same content; nothing else is
      accepted. */
  lemma {:induction false} AppendIff(s: Store, actor: int, token: int, epoch: nat, live: bool, id: Batch, events: Batch)
    requires Owns(s, actor, token, epoch, live) && events != []
    ensures var r := Append(s, actor, token, epoch, live, id, events);
      var known := Key(epoch, id) in s.receipts;
      && (r.Ok? <==>
            if known then s.receipts[Key(epoch, id)].digest == events
            else forall i: nat :: i < |events| ==> SeqAt(events, i) == |s.log| + i)
      && (r.Err? ==> r.error == SequenceConflict)
      && (r.Ok? && known ==> r.value == (s, s.receipts[Key(epoch, id)].nextSeq))
      && (r.Ok? && !known ==>
            && r.value.0.log == s.log + events && r.value.1 == |s.log| + |events|
            && r.value.0.owner == s.owner && r.value.0.epoch == s.epoch)
  {
  }

  /** A page holds the committed events from the offset on, as many as asked for or left, and the committed
      length. */
  lemma {:induction false} PageIs(log: seq<Event>, offset: nat, length: nat)
    ensures var r := ReadEvents(log, offset, length);
      && (r.Err? <==> length > 10_000)
      && (r.Ok? ==>
            && r.value.1 == |log|
            && |r.value.0| ==
              (if offset >= |log| then 0 else if |log| - offset < length then |log| - offset else length)
            && forall i :: 0 <= i < |r.value.0| ==> offset + i < |log| && r.value.0[i] == log[offset + i])
  {
  }

  // ---------------------------------------------------------------------
  // Every run of requests
  // ---------------------------------------------------------------------

  /** A write open or a release that was granted. */
  predicate Granted(s: Store, r: Request) {
    match r
    case OpenRequest(actor, canTakeover, expected, token) => OpenWriter(s, actor, canTakeover, expected, token).Ok?
    case ReleaseRequest(actor, token, epoch, live) => ReleaseOwner(s, actor, token, epoch, live).Ok?
    case AppendRequest(_, _, _, _, _, _) => false
  }

  /** The openings and releases that were granted, in order. */
  function Grants(s: Store, rs: seq<Request>): seq<Request> {
    if rs == [] then []
    else
      var init, r := rs[..|rs| - 1], rs[|rs| - 1];
      Grants(s, init) + if Granted(ProcessAll(s, init), r) then [r] else []
  }

  /** What a request adds to the log. */
  function Added(s: Store, r: Request): Batch {
    match r
    case AppendRequest(actor, token, epoch, live, id, events) =>
      if Append(s, actor, token, epoch, live, id, events).Ok? && Key(epoch, id) !in s.receipts then events else []
    case _ => []
  }

  function AllAdded(s: Store, rs: seq<Request>): Batch {
    if rs == [] then []
    else AllAdded(s, rs[..|rs| - 1]) + Added(ProcessAll(s, rs[..|rs| - 1]), rs[|rs| - 1])
  }

  lemma {:induction false} StepAdds(s: Store, r: Request)
    ensures Process(s, r).log == s.log + Added(s, r)
    ensures Process(s, r).epoch == if Granted(s, r) then s.epoch + 1 else s.epoch
    ensures Process(s, r).owner ==
      if !Granted(s, r) then s.owner
      else if r.OpenRequest? then Some(Owner(r.actor, r.token)) else None
  {
    assert s.log + [] == s.log;
  }

  /** After any sequence of requests: the owner is the one opened last, unless it was released since; the epoch has
      counted every opening and release; and the log was extended by the accepted new batches, in order. */
  lemma {:induction false} RunAmountsTo(s: Store, rs: seq<Request>)
    ensures var s' := ProcessAll(s, rs);
      var gs := Grants(s, rs);
      && s'.owner == (if gs == [] then s.owner
                      else if gs[|gs| - 1].OpenRequest? then Some(Owner(gs[|gs| - 1].actor, gs[|gs| - 1].token))
                      else None)
      && s'.epoch == s.epoch + |gs|
      && s'.log == s.log + AllAdded(s, rs)
  {
    if rs == [] {
      assert s.log + [] == s.log;
    } else {
      var init, r := rs[..|rs| - 1], rs[|rs| - 1];
      RunAmountsTo(s, init);
      StepAdds(ProcessAll(s, init), r);
      assert (s.log + AllAdded(s, init)) + Added(ProcessAll(s, init), r)
        == s.log + (AllAdded(s, init) + Added(ProcessAll(s, init), r));
    }
  }
}
