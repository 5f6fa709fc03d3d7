/** Model failover within one step: which routes are tried after availability failures, and in which order. */
module ModelFailover {
  import opened Options
  import opened NulKeys

  datatype Route = Route(provider: string, model: string)

  function Key(r: Route): string {
    r.provider + "\0" + r.model
  }

  /** A key tells routes apart that are free of NUL characters, by provider and by model. */
  lemma {:induction false} KeySeparates(a: Route, b: Route)
    requires NulFree(a.provider) && NulFree(b.provider)
    ensures Key(a) == Key(b) <==> a.provider == b.provider && a.model == b.model
  {
    assert Key(a) == a.provider + (NUL + a.model) && Key(b) == b.provider + (NUL + b.model);
    if Key(a) == Key(b) { JoinInjective(a.provider, b.provider, a.model, b.model); }
  }

  /** Turn and step of the model request the attempted set belongs to. */
  datatype StepKey = StepKey(turn: nat, step: nat)

  /** `find`: the first configured route that is neither the current one nor attempted. */
  function NextFallback(fallbacks: seq<Route>, current: Route, attempted: set<string>): Option<Route> {
    if fallbacks == [] then None
    else if Key(fallbacks[0]) != Key(current) && Key(fallbacks[0]) !in attempted then Some(fallbacks[0])
    else NextFallback(fallbacks[1..], current, attempted)
  }

  /** The configured routes, without those whose key was seen before, in order of priority. */
  function Fresh(fallbacks: seq<Route>, seen: set<string>): seq<Route> {
    if fallbacks == [] then []
    else if Key(fallbacks[0]) in seen then Fresh(fallbacks[1..], seen)
    else [fallbacks[0]] + Fresh(fallbacks[1..], seen + {Key(fallbacks[0])})
  }

  lemma {:induction false} FreshHead(fallbacks: seq<Route>, current: Route, seen: set<string>)
    requires Key(current) in seen
    ensures NextFallback(fallbacks, current, seen) ==
      if Fresh(fallbacks, seen) == [] then None else Some(Fresh(fallbacks, seen)[0])
  {
    if fallbacks != [] && Key(fallbacks[0]) in seen { FreshHead(fallbacks[1..], current, seen); }
  }

  lemma {:induction false} FreshTail(fallbacks: seq<Route>, seen: set<string>)
    requires Fresh(fallbacks, seen) != []
    ensures Fresh(fallbacks, seen + {Key(Fresh(fallbacks, seen)[0])}) == Fresh(fallbacks, seen)[1..]
  {
    var k := Key(Fresh(fallbacks, seen)[0]);
    if Key(fallbacks[0]) in seen { FreshTail(fallbacks[1..], seen); }
  }

  function RouteAt(s: seq<Route>, i: nat): Route
    requires i < |s|
  {
    s[i]
  }

  ghost predicate Unseen(f: seq<Route>, seen: set<string>) {
    forall i: nat :: i < |f| ==> Key(RouteAt(f, i)) !in seen
  }

  ghost predicate DistinctKeys(f: seq<Route>) {
    forall i: nat, j: nat :: i < j < |f| ==> Key(RouteAt(f, i)) != Key(RouteAt(f, j))
  }

  ghost predicate HasKey(f: seq<Route>, key: string) {
    exists j: nat :: j < |f| && Key(RouteAt(f, j)) == key
  }

  /** No key occurs twice among the fresh routes, and none was seen before. */
  lemma {:induction false} FreshDistinct(fallbacks: seq<Route>, seen: set<string>)
    ensures Unseen(Fresh(fallbacks, seen), seen) && DistinctKeys(Fresh(fallbacks, seen))
  {
    if fallbacks != [] {
      var f := Fresh(fallbacks, seen);
      if Key(fallbacks[0]) in seen {
        FreshDistinct(fallbacks[1..], seen);
      } else {
        var seen' := seen + {Key(fallbacks[0])};
        var g := Fresh(fallbacks[1..], seen');
        FreshDistinct(fallbacks[1..], seen');
        forall i: nat | i < |f| ensures Key(RouteAt(f, i)) !in seen
          { if i > 0 { assert RouteAt(f, i) == RouteAt(g, i - 1); } }
        forall i: nat, j: nat | i < j < |f| ensures Key(RouteAt(f, i)) != Key(RouteAt(f, j)) {
          assert RouteAt(f, j) == RouteAt(g, j - 1);
          if i > 0 { assert RouteAt(f, i) == RouteAt(g, i - 1); }
        }
      }
    }
  }

  /** Every configured key is seen or fresh. */
  lemma {:induction false} FreshComplete(fallbacks: seq<Route>, seen: set<string>, i: nat)
    requires i < |fallbacks|
    ensures Key(fallbacks[i]) in seen || HasKey(Fresh(fallbacks, seen), Key(fallbacks[i]))
  {
    var f := Fresh(fallbacks, seen);
    if Key(fallbacks[0]) in seen {
      if i > 0 { FreshComplete(fallbacks[1..], seen, i - 1); }
    } else if i == 0 {
      assert RouteAt(f, 0) == fallbacks[0];
    } else {
      var g := Fresh(fallbacks[1..], seen + {Key(fallbacks[0])});
      FreshComplete(fallbacks[1..], seen + {Key(fallbacks[0])}, i - 1);
      assert RouteAt(f, 0) == fallbacks[0];
      if HasKey(g, Key(fallbacks[i])) {
        var j: nat :| j < |g| && Key(RouteAt(g, j)) == Key(fallbacks[i]);
        assert RouteAt(f, j + 1) == RouteAt(g, j);
      }
    }
  }

  /** The n-th fresh route stands in the configured list behind the ones before it. */
  lemma {:induction false} FreshInOrder(fallbacks: seq<Route>, seen: set<string>) returns (at: seq<int>)
    ensures |at| == |Fresh(fallbacks, seen)|
    ensures forall i: nat :: i < |at| ==>
      0 <= at[i] < |fallbacks| && RouteAt(Fresh(fallbacks, seen), i) == fallbacks[at[i]]
    ensures forall i: nat, j: nat :: i < j < |at| ==> at[i] < at[j]
  {
    if fallbacks == [] {
      at := [];
    } else {
      var kept := Key(fallbacks[0]) !in seen;
      var f, g := Fresh(fallbacks, seen), Fresh(fallbacks[1..], if kept then seen + {Key(fallbacks[0])} else seen);
      var rest := FreshInOrder(fallbacks[1..], if kept then seen + {Key(fallbacks[0])} else seen);
      var shifted := Shift(rest);
      at := if kept then [0] + shifted else shifted;
      forall i: nat | i < |at| ensures 0 <= at[i] < |fallbacks| && RouteAt(f, i) == fallbacks[at[i]] {
        var k: int := if kept then i - 1 else i;
        if k >= 0 { assert RouteAt(f, i) == RouteAt(g, k) == fallbacks[1..][rest[k]]; }
      }
    }
  }

  function Shift(s: seq<int>): (r: seq<int>)
    ensures |r| == |s| && forall i :: 0 <= i < |s| ==> r[i] == s[i] + 1
  {
    if s == [] then [] else [s[0] + 1] + Shift(s[1..])
  }

  // ---------------------------------------------------------------------
  // The hooks of one agent
  // ---------------------------------------------------------------------

  class ModelRouting {
    const fallbacks: seq<Route>
    var requestKey: Option<StepKey>
    var attempted: set<string>
    var current: Route

    constructor (configured: seq<Route>, selected: Route)
      ensures fallbacks == configured && current == selected && requestKey == None && attempted == {}
    {
      fallbacks, current, requestKey, attempted := configured, selected, None, {};
    }

    /** `agent/request`: a new turn or step forgets the attempts of the last one. */
    method OnRequest(key: StepKey)
      modifies this`requestKey, this`attempted
      ensures requestKey == Some(key)
      ensures attempted == if old(requestKey) == Some(key) then old(attempted) else {}
    {
      if requestKey != Some(key) {
        requestKey := Some(key);
        attempted := {};
      }
    }

    /** `agent/request-error`: switch to the next fresh route and ask for a retry, if there is one. */
    method OnRequestError(key: StepKey, available: bool) returns (retry: bool)
      modifies this
      ensures available ==> !retry && unchanged(this)
      ensures !available ==>
        && requestKey == Some(key)
        && attempted == (if old(requestKey) == Some(key) then old(attempted) else {}) + {Key(old(current))}
        && retry == (Fresh(fallbacks, attempted) != [])
        && current == if retry then Fresh(fallbacks, attempted)[0] else old(current)
    {
      if available { return false; }
      OnRequest(key);
      attempted := attempted + {Key(current)};
      FreshHead(fallbacks, current, attempted);
      var backup := NextFallback(fallbacks, current, attempted);
      if backup.None? { return false; }
      current := backup.value;
      return true;
    }
  }

  /** One model step in which the first `failures` requests fail for want of availability: the routes
      asked are the selected one and then the fresh configured routes, in order, each once; with more
      failures than routes the step fails instead of asking one again. */
  method RunStep(routing: ModelRouting, key: StepKey, failures: nat) returns (tried: seq<Route>, failed: bool)
    requires routing.requestKey != Some(key)
    modifies routing
    ensures var backups := Fresh(routing.fallbacks, {Key(old(routing.current))});
      && failed == (failures > |backups|)
      && tried == [old(routing.current)] + backups[..if failures > |backups| then |backups| else failures]
  {
    ghost var backups := Fresh(routing.fallbacks, {Key(routing.current)});
    tried := [routing.current];
    routing.OnRequest(key);
    assert {} + {Key(routing.current)} == {Key(routing.current)} && backups[0..] == backups;
    var n := 0;
    ghost var last := routing.current;
    while n < failures
      invariant n <= failures && n <= |backups| && |tried| == n + 1
      invariant routing.requestKey == Some(key)
      invariant tried == [old(routing.current)] + backups[..n]
      invariant Fresh(routing.fallbacks, routing.attempted + {Key(routing.current)}) == backups[n..]
      decreases |backups| - n, failures - n
    {
      ghost var seen := routing.attempted + {Key(routing.current)};
      var retry := routing.OnRequestError(key, false);
      assert routing.attempted == seen;
      if !retry { return tried, true; }
      FreshTail(routing.fallbacks, seen);
      assert backups[n..][0] == backups[n] && backups[n..][1..] == backups[n + 1..];
      tried := tried + [routing.current];
      n := n + 1;
      assert backups[..n - 1] + [backups[n - 1]] == backups[..n];
    }
    return tried, false;
  }

  /** Nothing is asked twice. */
  lemma {:induction false} TriedOnce(fallbacks: seq<Route>, first: Route)
    ensures var tried := [first] + Fresh(fallbacks, {Key(first)}); |tried| <= |fallbacks| + 1 && DistinctKeys(tried)
  {
    var f := Fresh(fallbacks, {Key(first)});
    var tried := [first] + f;
    FreshDistinct(fallbacks, {Key(first)});
    FreshShort(fallbacks, {Key(first)});
    forall i: nat, j: nat | i < j < |tried| ensures Key(RouteAt(tried, i)) != Key(RouteAt(tried, j)) {
      assert RouteAt(tried, j) == RouteAt(f, j - 1);
      if i > 0 { assert RouteAt(tried, i) == RouteAt(f, i - 1); }
    }
  }

  /** And every configured route is asked before the step gives up, where providers are free of NUL. */
  lemma {:induction false} AskedExactlyOnce(fallbacks: seq<Route>, first: Route, r: Route)
    requires NulFree(first.provider) && forall f :: f in fallbacks ==> NulFree(f.provider)
    requires r == first || r in fallbacks
    ensures var tried := [first] + Fresh(fallbacks, {Key(first)});
      exists i: nat ::
        i < |tried| && RouteAt(tried, i) == r && (forall j: nat :: j < |tried| && RouteAt(tried, j) == r ==> j == i)
  {
    var fresh' := Fresh(fallbacks, {Key(first)});
    var tried := [first] + fresh';
    TriedOnce(fallbacks, first);
    var i: nat := 0;
    if r == first {
      assert RouteAt(tried, 0) == r;
    } else {
      var n: nat :| n < |fallbacks| && fallbacks[n] == r;
      FreshComplete(fallbacks, {Key(first)}, n);
      KeySeparates(r, first);
      var at := FreshInOrder(fallbacks, {Key(first)});
      var k: nat :| k < |fresh'| && Key(RouteAt(fresh', k)) == Key(r);
      assert RouteAt(fresh', k) == fallbacks[at[k]];
      KeySeparates(RouteAt(fresh', k), r);
      i := k + 1;
      assert RouteAt(tried, i) == RouteAt(fresh', k) == r;
    }
    forall j: nat | j < |tried| && RouteAt(tried, j) == r ensures j == i {
      assert Key(RouteAt(tried, i)) == Key(RouteAt(tried, j));
    }
  }

  lemma {:induction false} FreshShort(fallbacks: seq<Route>, seen: set<string>)
    ensures |Fresh(fallbacks, seen)| <= |fallbacks|
  {
    if fallbacks != [] {
      FreshShort(fallbacks[1..], if Key(fallbacks[0]) in seen then seen else seen + {Key(fallbacks[0])});
    }
  }
}
