/**
 What a canonical text looks like: every object lists its keys in one fixed order,
 strings use the shortest escapes and no lone surrogates, and there is no text for
 a value that is not JSON.
 */
module JsonOrder {
  import opened Options
  import opened CanonicalJson

  // ---------------------------------------------------------------------
  // Key order
  // ---------------------------------------------------------------------

  /** The length of the longest common beginning. */
  function Common(a: Text, b: Text): (k: nat)
    ensures k <= |a| && k <= |b|
  {
    if a == [] || b == [] || a[0] != b[0] then 0 else 1 + Common(a[1..], b[1..])
  }

  /** Strings are compared at the first code unit in which they differ; a proper beginning comes first. */
  lemma {:induction false} LessIff(a: Text, b: Text)
    ensures var k := Common(a, b);
      && a[..k] == b[..k] && (k < |a| && k < |b| ==> a[k] != b[k])
      && (Less(a, b) <==> if k < |a| && k < |b| then a[k] < b[k] else |a| < |b|)
    decreases |a|
  {
    if a != [] && b != [] && a[0] == b[0] {
      LessIff(a[1..], b[1..]);
      var k := Common(a[1..], b[1..]);
      assert a[..k + 1] == [a[0]] + a[1..][..k] && b[..k + 1] == [b[0]] + b[1..][..k];
    }
  }

  /** Array indices by value, then the other keys by code units. */
  predicate Before(a: Text, b: Text) {
    if IsIndex(a) then !IsIndex(b) || ToNumber(a) <= ToNumber(b) else !IsIndex(b) && Less(a, b)
  }

  predicate Ordered(m: Members) {
    m.Member? ==> Ordered(m.rest) && (m.rest.Member? ==> Before(m.key, m.rest.key))
  }

  /** Every object inside the value lists its keys in order. */
  predicate Tidy(v: Json) {
    match v
    case Arr(items) => TidyItems(items)
    case Obj(members) => Ordered(members) && TidyMembers(members)
    case _ => true
  }

  predicate TidyItems(l: Items) {
    l.Item? ==> Tidy(l.head) && TidyItems(l.tail)
  }

  predicate TidyMembers(m: Members) {
    m.Member? ==> Tidy(m.value) && TidyMembers(m.rest)
  }

  predicate AllIndices(m: Members) {
    m.Member? ==> IsIndex(m.key) && AllIndices(m.rest)
  }

  predicate NoIndices(m: Members) {
    m.Member? ==> !IsIndex(m.key) && NoIndices(m.rest)
  }

  lemma {:induction false} InsertIndexOrdered(key: Text, value: Json, m: Members)
    requires Ordered(m) && AllIndices(m) && IsIndex(key)
    ensures Ordered(InsertIndex(key, value, m)) && AllIndices(InsertIndex(key, value, m))
  {
    if m.Member? && ToNumber(key) >= ToNumber(m.key) { InsertIndexOrdered(key, value, m.rest); }
  }

  lemma {:induction false} IndicesOrdered(m: Members)
    ensures Ordered(Indices(m)) && AllIndices(Indices(m))
  {
    if m.Member? {
      IndicesOrdered(m.rest);
      if IsIndex(m.key) { InsertIndexOrdered(m.key, m.value, Indices(m.rest)); }
    }
  }

  /** The first name left is not before the first key. */
  lemma {:induction false} NamesOrdered(m: Members)
    requires Sorted(m)
    ensures Ordered(Names(m)) && NoIndices(Names(m))
    ensures Names(m).Member? ==> m.Member? && (Names(m).key == m.key || Less(m.key, Names(m).key))
  {
    if m.Member? {
      NamesOrdered(m.rest);
      if m.rest.Member? && Names(m.rest).Member? && Names(m.rest).key != m.rest.key {
        LessTransitive(m.key, m.rest.key, Names(m.rest).key);
      }
    }
  }

  lemma {:induction false} AppendOrdered(a: Members, b: Members)
    requires Ordered(a) && AllIndices(a) && Ordered(b) && NoIndices(b)
    ensures Ordered(Append(a, b))
  {
    if a.Member? { AppendOrdered(a.rest, b); }
  }

  lemma {:induction false} InsertTidy(key: Text, value: Json, m: Members)
    requires Tidy(value) && TidyMembers(m)
    ensures TidyMembers(Insert(key, value, m)) && TidyMembers(InsertIndex(key, value, m))
  {
    if m.Member? { InsertTidy(key, value, m.rest); }
  }

  lemma {:induction false} PartsTidy(m: Members)
    requires TidyMembers(m)
    ensures TidyMembers(Sort(m)) && TidyMembers(Indices(m)) && TidyMembers(Names(m))
  {
    if m.Member? {
      PartsTidy(m.rest);
      InsertTidy(m.key, m.value, Sort(m.rest));
      InsertTidy(m.key, m.value, Indices(m.rest));
    }
  }

  lemma {:induction false} AppendTidy(a: Members, b: Members)
    requires TidyMembers(a) && TidyMembers(b)
    ensures TidyMembers(Append(a, b))
  {
    if a.Member? { AppendTidy(a.rest, b); }
  }

  lemma {:induction false} EntriesTidy(m: Members)
    requires WfMembers(m) && TidyMembers(m)
    ensures var e := FromEntries(Sort(m)); Ordered(e) && TidyMembers(e)
  {
    var s := Sort(m);
    SortSorts(m);
    PartsTidy(m);
    PartsTidy(s);
    IndicesOrdered(s);
    NamesOrdered(s);
    AppendOrdered(Indices(s), Names(s));
    AppendTidy(Indices(s), Names(s));
  }

  /** In a canonical value every object, at any depth, lists its array indices in ascending order and then its other
      keys in code unit order. */
  lemma {:induction false} CanonIsTidy(v: Json)
    requires Wf(v)
    ensures Tidy(Canon(v))
  {
    match v
    case Arr(items) => ItemsTidy(items);
    case Obj(members) =>
      MembersTidy(members);
      CanonMembersWf(members);
      EntriesTidy(CanonMembers(members));
    case _ =>
  }

  lemma {:induction false} ItemsTidy(l: Items)
    requires WfItems(l)
    ensures TidyItems(CanonItems(l))
  {
    if l.Item? { CanonIsTidy(l.head); ItemsTidy(l.tail); }
  }

  lemma {:induction false} MembersTidy(m: Members)
    requires WfMembers(m)
    ensures TidyMembers(CanonMembers(m))
  {
    if m.Member? { CanonIsTidy(m.value); MembersTidy(m.rest); }
  }

  // ---------------------------------------------------------------------
  // Escapes
  // ---------------------------------------------------------------------

  /** Surrogates occur in pairs only. */
  predicate PairsOnly(t: Text) {
    t == [] || (if Paired(t) then PairsOnly(t[2..]) else !High(t[0]) && !Low(t[0]) && PairsOnly(t[1..]))
  }

  lemma {:induction false} PlainFirst(a: Text, x: Text)
    requires (forall i :: 0 <= i < |a| ==> !High(a[i]) && !Low(a[i])) && PairsOnly(x)
    ensures PairsOnly(a + x)
    decreases |a|
  {
    if a == [] {
      assert a + x == x;
    } else {
      PlainFirst(a[1..], x);
      assert (a + x)[1..] == a[1..] + x;
    }
  }

  /** Seven units have an escape of two characters, control characters and lone surrogates one of six, in lower case,
      and everything else stands for itself. */
  lemma {:induction false} EscapeIs(c: int)
    requires 0 <= c < 0x1_0000
    ensures |Unit(c)| ==
      if c in {8, 9, 10, 12, 13, 34, 92} then 2 else if c < 32 || 0xD800 <= c < 0xE000 then 6 else 1
    ensures forall i :: 0 <= i < |Unit(c)| ==>
      Unit(c)[i] >= 32 && !High(Unit(c)[i]) && !Low(Unit(c)[i])
    ensures |Unit(c)| > 1 ==> forall i :: 0 <= i < |Unit(c)| ==> !(65 <= Unit(c)[i] <= 70)
  {
  }

  /** The text of a string is well-formed whatever the string is: surrogates in pairs. */
  lemma {:induction false} EscapedIsWellFormed(s: Text)
    requires IsText(s)
    ensures PairsOnly(Escaped(s))
    decreases |s|
  {
    if Paired(s) {
      EscapedIsWellFormed(s[2..]);
      var t := [s[0], s[1]] + Escaped(s[2..]);
      assert Paired(t) && t[2..] == Escaped(s[2..]);
    } else if s != [] {
      EscapedIsWellFormed(s[1..]);
      EscapeIs(s[0]);
      PlainFirst(Unit(s[0]), Escaped(s[1..]));
    }
  }

  // ---------------------------------------------------------------------
  // Values that are not JSON
  // ---------------------------------------------------------------------

  function Nth(l: Items, i: nat): Option<Json> {
    if l.NoItem? then None else if i == 0 then Some(l.head) else Nth(l.tail, i - 1)
  }

  function NthMember(m: Members, i: nat): Option<Json> {
    if m.NoMember? then None else if i == 0 then Some(m.value) else NthMember(m.rest, i - 1)
  }

  /** The value at a path of positions. */
  function At(v: Json, path: seq<nat>): Option<Json>
    decreases |path|
  {
    if path == [] then Some(v)
    else
      var child := if v.Arr? then Nth(v.items, path[0]) else if v.Obj? then NthMember(v.members, path[0]) else None;
      if child.None? then None else At(child.value, path[1..])
  }

  lemma {:induction false} LosslessAt(v: Json, path: seq<nat>)
    requires Lossless(v)
    ensures At(v, path) != Some(Foreign)
    decreases |path|
  {
    if path != [] {
      if v.Arr? { LosslessNth(v.items, path[0]); }
      if v.Obj? { LosslessMember(v.members, path[0]); }
      var child := if v.Arr? then Nth(v.items, path[0]) else if v.Obj? then NthMember(v.members, path[0]) else None;
      if child.Some? { LosslessAt(child.value, path[1..]); }
    }
  }

  lemma {:induction false} LosslessNth(l: Items, i: nat)
    requires LosslessItems(l)
    ensures Nth(l, i).Some? ==> Lossless(Nth(l, i).value)
  {
    if l.Item? && i > 0 { LosslessNth(l.tail, i - 1); }
  }

  lemma {:induction false} LosslessMember(m: Members, i: nat)
    requires LosslessMembers(m)
    ensures NthMember(m, i).Some? ==> Lossless(NthMember(m, i).value)
  {
    if m.Member? && i > 0 { LosslessMember(m.rest, i - 1); }
  }

  lemma {:induction false} PathToForeign(v: Json) returns (path: seq<nat>)
    requires !Lossless(v)
    ensures At(v, path) == Some(Foreign)
  {
    match v
    case Arr(items) =>
      var i, rest := PathInItems(items);
      path := [i] + rest;
      assert path[1..] == rest;
    case Obj(members) =>
      var i, rest := PathInMembers(members);
      path := [i] + rest;
      assert path[1..] == rest;
    case _ => path := [];
  }

  lemma {:induction false} PathInItems(l: Items) returns (i: nat, path: seq<nat>)
    requires !LosslessItems(l)
    ensures Nth(l, i).Some? && At(Nth(l, i).value, path) == Some(Foreign)
  {
    if !Lossless(l.head) {
      i := 0;
      path := PathToForeign(l.head);
    } else {
      i, path := PathInItems(l.tail);
      i := i + 1;
    }
  }

  lemma {:induction false} PathInMembers(m: Members) returns (i: nat, path: seq<nat>)
    requires !LosslessMembers(m)
    ensures NthMember(m, i).Some? && At(NthMember(m, i).value, path) == Some(Foreign)
  {
    if !Lossless(m.value) {
      i := 0;
      path := PathToForeign(m.value);
    } else {
      i, path := PathInMembers(m.rest);
      i := i + 1;
    }
  }

  /** There is a canonical text exactly if nothing that is not JSON occurs anywhere in the value. */
  lemma {:induction false} HasTextIff(v: Json)
    ensures CanonicalJson.CanonicalJson(v).Some? <==> forall path :: At(v, path) != Some(Foreign)
  {
    if Lossless(v) {
      forall path ensures At(v, path) != Some(Foreign) { LosslessAt(v, path); }
    } else {
      var path := PathToForeign(v);
    }
  }
}
