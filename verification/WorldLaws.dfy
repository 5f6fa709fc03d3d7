/**
 The world is made of the two components and nothing else: its store is the
 backend after the requests that reached it, and each handle is a session handle
 after its own pieces of code. So the laws of either hold in every history.
 */
module WorldLaws {
  import opened Options
  import opened SessionStore
  import opened SessionHandle
  import opened DurableLog

  /** The request that reaches the backend at this happening, if one does. */
  function RequestOf(w: World, x: Happening): seq<Request> {
    match x
    case Open(actor, canTakeover, expected) => [OpenRequest(actor, canTakeover, expected, w.store.epoch + 1)]
    case Deliver(k, actor, live) =>
      if k in w.sent then [AppendRequest(actor, k.epoch, k.epoch, live, k.batch, k.batch)] else []
    case Release(e, actor, live) => [ReleaseRequest(actor, e, e, live)]
    case _ => []
  }

  function Requests(w: World, xs: seq<Happening>, limits: Limits): seq<Request> {
    if xs == [] then []
    else Requests(w, xs[..|xs| - 1], limits) + RequestOf(HappenAll(w, xs[..|xs| - 1], limits), xs[|xs| - 1])
  }

  lemma {:induction false} ProcessOne(s: Store, rs: seq<Request>, more: seq<Request>)
    requires |more| <= 1
    ensures ProcessAll(s, rs + more) ==
      if more == [] then ProcessAll(s, rs) else Process(ProcessAll(s, rs), more[0])
  {
    if more == [] {
      assert rs + more == rs;
    } else {
      assert (rs + more)[..|rs|] == rs;
    }
  }

  lemma {:induction false} OneRequest(w: World, x: Happening, limits: Limits)
    ensures var rs := RequestOf(w, x);
      Happen(w, x, limits).store == if rs == [] then w.store else Process(w.store, rs[0])
  {
  }

  /** In every history the store is the backend after exactly the requests that reached it. */
  lemma {:induction false} StoreIsBackend(w: World, xs: seq<Happening>, limits: Limits)
    ensures HappenAll(w, xs, limits).store == ProcessAll(w.store, Requests(w, xs, limits))
  {
    if xs != [] {
      var past, x := xs[..|xs| - 1], xs[|xs| - 1];
      StoreIsBackend(w, past, limits);
      OneRequest(HappenAll(w, past, limits), x, limits);
      ProcessOne(w.store, Requests(w, past, limits), RequestOf(HappenAll(w, past, limits), x));
    }
  }

  /** A handle came into being with this log length and ran these pieces. */
  predicate Ran(h: Handle, base: nat, ps: seq<Piece>, limits: Limits) {
    h == DoAll(Opened(base), ps, limits)
  }

  lemma {:induction false} RanNext(h: Handle, base: nat, ps: seq<Piece>, p: Piece, limits: Limits)
    requires Ran(h, base, ps, limits)
    ensures Ran(Do(h, p, limits), base, ps + [p], limits)
  {
    assert (ps + [p])[..|ps|] == ps;
  }

  /** What a happening does to one handle: it opens it, lets it run one piece, or leaves it alone. */
  lemma {:induction false} OneHandle(w: World, x: Happening, e: nat, limits: Limits) returns (p: Option<Piece>)
    requires e in Happen(w, x, limits).handles
    ensures var h' := Happen(w, x, limits).handles[e];
      if e in w.handles && !(x.Open? && Happen(w, x, limits) != w && e == w.store.epoch + 1) then
        h' == if p.None? then w.handles[e] else Do(w.handles[e], p.value, limits)
      else h' == Opened(|w.store.log|)
  {
    p := None;
    match x
    case Open(actor, canTakeover, expected) =>
    case Local(d, piece) => if d == e && e in w.handles && !piece.DoAcknowledge? { p := Some(piece); }
    case Deliver(_, _, _) =>
    case Receive(a) =>
      if a in w.answers && a.epoch == e && e in w.handles && w.handles[e].stage.AwaitAck?
        && w.handles[e].stage.batch == a.batch
      { p := Some(DoAcknowledge(a.nextSeq)); }
    case Release(_, _, _) =>
  }

  /** In every history each handle is a session handle after some pieces of its own code. */
  lemma {:induction false} HandleIsHandle(xs: seq<Happening>, e: nat, limits: Limits)
    returns (base: nat, ps: seq<Piece>)
    requires e in HappenAll(Initial(), xs, limits).handles
    ensures Ran(HappenAll(Initial(), xs, limits).handles[e], base, ps, limits)
  {
    var past, x := xs[..|xs| - 1], xs[|xs| - 1];
    var w := HappenAll(Initial(), past, limits);
    var p := OneHandle(w, x, e, limits);
    base, ps := |w.store.log|, [];
    if HappenAll(Initial(), xs, limits).handles[e] != Opened(|w.store.log|) {
      base, ps := HandleIsHandle(past, e, limits);
      if p.Some? {
        RanNext(w.handles[e], base, ps, p.value, limits);
        ps := ps + [p.value];
      }
    }
  }
}
