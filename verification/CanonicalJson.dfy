/**
 `canonicalJson`: a recursive key sort followed by `JSON.stringify`. Texts are
 sequences of UTF-16 code units. A finite number is its `JSON.stringify` lexeme,
 so 0 and -0 are one number, as they are for the serializer.
 */
module CanonicalJson {
  import opened Options

  type Text = seq<int>

  datatype Json =
    | Null
    | Bool(value: bool)
    | Num(lexeme: Text)
    | Str(text: Text)
    | Arr(items: Items)
    | Obj(members: Members)
    | Foreign                       // undefined, NaN, an infinity, a function: `canonicalValue` throws

  datatype Items = NoItem | Item(head: Json, tail: Items)

  /** Own enumerable properties in the object's order. */
  datatype Members = NoMember | Member(key: Text, value: Json, rest: Members)

  // ---------------------------------------------------------------------
  // canonicalValue
  // ---------------------------------------------------------------------

  predicate Lossless(v: Json) {
    match v
    case Arr(items) => LosslessItems(items)
    case Obj(members) => LosslessMembers(members)
    case Foreign => false
    case _ => true
  }

  predicate LosslessItems(l: Items) {
    l.Item? ==> Lossless(l.head) && LosslessItems(l.tail)
  }

  predicate LosslessMembers(m: Members) {
    m.Member? ==> Lossless(m.value) && LosslessMembers(m.rest)
  }

  /** The order of `Array.prototype.sort` on strings: by code units. */
  predicate Less(a: Text, b: Text) {
    b != [] && (a == [] || a[0] < b[0] || (a[0] == b[0] && Less(a[1..], b[1..])))
  }

  function Insert(key: Text, value: Json, m: Members): Members {
    if m.NoMember? || Less(key, m.key) then Member(key, value, m)
    else Member(m.key, m.value, Insert(key, value, m.rest))
  }

  function Sort(m: Members): Members {
    if m.NoMember? then m else Insert(m.key, m.value, Sort(m.rest))
  }

  predicate IsDigit(c: int) {
    48 <= c <= 57
  }

  function ToNumber(t: Text): int {
    if t == [] then 0 else 10 * ToNumber(t[..|t| - 1]) + t[|t| - 1] - 48
  }

  /** An array index: a canonical decimal below 2^32 - 1. Such keys come first in every object. */
  predicate IsIndex(k: Text) {
    && 1 <= |k| <= 10
    && (forall i :: 0 <= i < |k| ==> IsDigit(k[i]))
    && (|k| > 1 ==> k[0] != 48)
    && ToNumber(k) < 0xFFFF_FFFF
  }

  function InsertIndex(key: Text, value: Json, m: Members): Members {
    if m.NoMember? || ToNumber(key) < ToNumber(m.key) then Member(key, value, m)
    else Member(m.key, m.value, InsertIndex(key, value, m.rest))
  }

  function Indices(m: Members): Members {
    if m.NoMember? then m else if IsIndex(m.key) then InsertIndex(m.key, m.value, Indices(m.rest)) else Indices(m.rest)
  }

  function Names(m: Members): Members {
    if m.NoMember? then m else if IsIndex(m.key) then Names(m.rest) else Member(m.key, m.value, Names(m.rest))
  }

  function Append(a: Members, b: Members): Members {
    if a.NoMember? then b else Member(a.key, a.value, Append(a.rest, b))
  }

  /** The object `Object.fromEntries` builds from these entries enumerates them in this order. */
  function FromEntries(m: Members): Members {
    Append(Indices(m), Names(m))
  }

  function Canon(v: Json): Json {
    match v
    case Arr(items) => Arr(CanonItems(items))
    case Obj(members) => Obj(FromEntries(Sort(CanonMembers(members))))
    case _ => v
  }

  function CanonItems(l: Items): Items {
    if l.NoItem? then l else Item(Canon(l.head), CanonItems(l.tail))
  }

  function CanonMembers(m: Members): Members {
    if m.NoMember? then m else Member(m.key, Canon(m.value), CanonMembers(m.rest))
  }

  // ---------------------------------------------------------------------
  // JSON.stringify
  // ---------------------------------------------------------------------

  const QUOTE := 34
  const BACKSLASH := 92
  const COMMA := 44
  const COLON := 58

  predicate High(c: int) { 0xD800 <= c < 0xDC00 }
  predicate Low(c: int) { 0xDC00 <= c < 0xE000 }

  function HexDigit(d: int): int {
    if d < 10 then 48 + d else 87 + d
  }

  /** Four lower-case hexadecimal digits. */
  function Hex(c: int): Text {
    [HexDigit(c / 4096 % 16), HexDigit(c / 256 % 16), HexDigit(c / 16 % 16), HexDigit(c % 16)]
  }

  /** The letter of a two-character escape, or 0. */
  function Letter(c: int): int {
    if c == 8 then 98 else if c == 9 then 116 else if c == 10 then 110 else if c == 12 then 102
    else if c == 13 then 114 else if c == QUOTE || c == BACKSLASH then c else 0
  }

  /** One code unit on its own; a surrogate here is unpaired. */
  function Unit(c: int): Text {
    if Letter(c) != 0 then [BACKSLASH, Letter(c)]
    else if c < 32 || High(c) || Low(c) then [BACKSLASH, 117] + Hex(c)
    else [c]
  }

  predicate Paired(s: Text) {
    |s| >= 2 && High(s[0]) && Low(s[1])
  }

  function Escaped(s: Text): Text {
    if s == [] then []
    else if Paired(s) then [s[0], s[1]] + Escaped(s[2..])
    else Unit(s[0]) + Escaped(s[1..])
  }

  /** What follows the opening quotation mark. */
  function Quoted(s: Text): Text {
    Escaped(s) + [QUOTE]
  }

  function Ser(v: Json): Text {
    match v
    case Null => [110, 117, 108, 108]
    case Bool(b) => if b then [116, 114, 117, 101] else [102, 97, 108, 115, 101]
    case Num(lexeme) => lexeme
    case Str(s) => [QUOTE] + Quoted(s)
    case Arr(items) => [91] + SerItems(items)
    case Obj(members) => [123] + SerMembers(members)
    case Foreign => []
  }

  /** The elements, separated by commas, and the closing bracket. */
  function SerItems(l: Items): Text {
    if l.NoItem? then [93]
    else if l.tail.NoItem? then Ser(l.head) + [93]
    else Ser(l.head) + ([COMMA] + SerItems(l.tail))
  }

  function SerMember(key: Text, value: Text): Text {
    [QUOTE] + (Quoted(key) + ([COLON] + value))
  }

  function SerMembers(m: Members): Text {
    if m.NoMember? then [125]
    else if m.rest.NoMember? then SerMember(m.key, Ser(m.value)) + [125]
    else SerMember(m.key, Ser(m.value)) + ([COMMA] + SerMembers(m.rest))
  }

  function CanonicalJson(v: Json): Option<Text> {
    if Lossless(v) then Some(Ser(Canon(v))) else None
  }

  // ---------------------------------------------------------------------
  // Well-formed values and what they denote
  // ---------------------------------------------------------------------

  predicate NumberChar(c: int) {
    IsDigit(c) || c == 43 || c == 45 || c == 46 || c == 101
  }

  predicate IsText(t: Text) {
    forall i :: 0 <= i < |t| ==> 0 <= t[i] < 0x1_0000
  }

  predicate IsLexeme(t: Text) {
    t != [] && (forall i :: 0 <= i < |t| ==> NumberChar(t[i])) && (IsDigit(t[0]) || t[0] == 45)
  }

  /** Code units are 16 bits wide, numbers have a lexeme, and keys of an object are distinct. */
  predicate Wf(v: Json) {
    match v
    case Num(lexeme) => IsLexeme(lexeme)
    case Str(s) => IsText(s)
    case Arr(items) => WfItems(items)
    case Obj(members) => WfMembers(members)
    case Foreign => false
    case _ => true
  }

  predicate WfItems(l: Items) {
    l.Item? ==> Wf(l.head) && WfItems(l.tail)
  }

  predicate WfMembers(m: Members) {
    m.Member? ==> IsText(m.key) && Wf(m.value) && Get(m.rest, m.key).None? && WfMembers(m.rest)
  }

  function Get(m: Members, k: Text): Option<Json> {
    if m.NoMember? then None else if m.key == k then Some(m.value) else Get(m.rest, k)
  }

  /** A JSON value: objects are maps. */
  datatype Value = VNull | VBool(bool) | VNum(Text) | VStr(Text) | VArr(seq<Value>) | VObj(map<Text, Value>) | VForeign

  function Denote(v: Json): Value {
    match v
    case Null => VNull
    case Bool(b) => VBool(b)
    case Num(lexeme) => VNum(lexeme)
    case Str(s) => VStr(s)
    case Arr(items) => VArr(DenoteItems(items))
    case Obj(members) => VObj(DenoteMembers(members))
    case Foreign => VForeign
  }

  function DenoteItems(l: Items): seq<Value> {
    if l.NoItem? then [] else [Denote(l.head)] + DenoteItems(l.tail)
  }

  function DenoteMembers(m: Members): map<Text, Value> {
    if m.NoMember? then map[] else DenoteMembers(m.rest)[m.key := Denote(m.value)]
  }

  // ---------------------------------------------------------------------
  // Sorting
  // ---------------------------------------------------------------------

  lemma {:induction false} LessTotal(a: Text, b: Text)
    ensures a != b ==> Less(a, b) || Less(b, a)
    ensures !(Less(a, b) && Less(b, a))
    ensures a == b ==> !Less(a, b)
    decreases |a|
  {
    if a != [] && b != [] {
      LessTotal(a[1..], b[1..]);
      assert a == [a[0]] + a[1..] && b == [b[0]] + b[1..];
    }
  }

  lemma {:induction false} LessTransitive(a: Text, b: Text, c: Text)
    requires Less(a, b) && Less(b, c)
    ensures Less(a, c)
    decreases |a|
  {
    if a != [] && a[0] == b[0] && b[0] == c[0] { LessTransitive(a[1..], b[1..], c[1..]); }
  }

  predicate Sorted(m: Members) {
    m.Member? ==> Sorted(m.rest) && (m.rest.Member? ==> Less(m.key, m.rest.key))
  }

  lemma {:induction false} GetInsert(key: Text, value: Json, m: Members, k: Text)
    requires Get(m, key).None?
    ensures Get(Insert(key, value, m), k) == if k == key then Some(value) else Get(m, k)
  {
    if m.Member? && !Less(key, m.key) { GetInsert(key, value, m.rest, k); }
  }

  lemma {:induction false} InsertSorted(key: Text, value: Json, m: Members)
    requires Sorted(m) && Get(m, key).None?
    ensures Sorted(Insert(key, value, m))
  {
    if m.Member? && !Less(key, m.key) {
      LessTotal(key, m.key);
      InsertSorted(key, value, m.rest);
    }
  }

  lemma {:induction false} SortSorts(m: Members)
    requires WfMembers(m)
    ensures Sorted(Sort(m))
    ensures forall k :: Get(Sort(m), k) == Get(m, k)
  {
    if m.Member? {
      SortSorts(m.rest);
      InsertSorted(m.key, m.value, Sort(m.rest));
      forall k ensures Get(Sort(m), k) == Get(m, k) { GetInsert(m.key, m.value, Sort(m.rest), k); }
    }
  }

  lemma {:induction false} SmallerIsAbsent(m: Members, k: Text)
    requires Sorted(m) && (m.Member? ==> Less(k, m.key))
    ensures Get(m, k).None?
  {
    if m.Member? {
      LessTotal(k, m.key);
      if m.rest.Member? { LessTransitive(k, m.key, m.rest.key); }
      SmallerIsAbsent(m.rest, k);
    }
  }

  /** A sorted member list is determined by its lookups. */
  lemma {:induction false} SortedUnique(a: Members, b: Members)
    requires Sorted(a) && Sorted(b) && forall k :: Get(a, k) == Get(b, k)
    ensures a == b
  {
    if a.NoMember? {
      assert b.Member? ==> Get(a, b.key) == Get(b, b.key);
    } else {
      assert Get(a, a.key) == Get(b, a.key) == Some(a.value);
      assert b.Member?;
      assert Get(a, b.key) == Get(b, b.key) == Some(b.value);
      LessTotal(a.key, b.key);
      if Less(a.key, b.key) { SmallerIsAbsent(b, a.key); }
      if Less(b.key, a.key) { SmallerIsAbsent(a, b.key); }
      SmallerIsAbsent(a.rest, a.key);
      SmallerIsAbsent(b.rest, b.key);
      forall k ensures Get(a.rest, k) == Get(b.rest, k) { assert Get(a, k) == Get(b, k); }
      SortedUnique(a.rest, b.rest);
    }
  }

  // ---- the enumeration order of the rebuilt object ----

  lemma {:induction false} GetInsertIndex(key: Text, value: Json, m: Members, k: Text)
    requires Get(m, key).None?
    ensures Get(InsertIndex(key, value, m), k) == if k == key then Some(value) else Get(m, k)
  {
    if m.Member? && !(ToNumber(key) < ToNumber(m.key)) { GetInsertIndex(key, value, m.rest, k); }
  }

  lemma {:induction false} GetIndices(m: Members, k: Text)
    requires WfMembers(m)
    ensures Get(Indices(m), k) == if IsIndex(k) then Get(m, k) else None
  {
    if m.Member? {
      GetIndices(m.rest, k);
      GetIndices(m.rest, m.key);
      if IsIndex(m.key) { GetInsertIndex(m.key, m.value, Indices(m.rest), k); }
    }
  }

  lemma {:induction false} GetNames(m: Members, k: Text)
    requires WfMembers(m)
    ensures Get(Names(m), k) == if IsIndex(k) then None else Get(m, k)
  {
    if m.Member? { GetNames(m.rest, k); }
  }

  lemma {:induction false} GetAppend(a: Members, b: Members, k: Text)
    ensures Get(Append(a, b), k) == if Get(a, k).Some? then Get(a, k) else Get(b, k)
  {
    if a.Member? { GetAppend(a.rest, b, k); }
  }

  lemma {:induction false} GetFromEntries(m: Members, k: Text)
    requires WfMembers(m)
    ensures Get(FromEntries(m), k) == Get(m, k)
  {
    GetIndices(m, k);
    GetNames(m, k);
    GetAppend(Indices(m), Names(m), k);
  }

  // ---- well-formedness is kept ----

  lemma {:induction false} InsertWf(key: Text, value: Json, m: Members)
    requires WfMembers(m) && IsText(key) && Wf(value) && Get(m, key).None?
    ensures WfMembers(Insert(key, value, m)) && WfMembers(InsertIndex(key, value, m))
  {
    if m.Member? {
      InsertWf(key, value, m.rest);
      GetInsert(key, value, m.rest, m.key);
      GetInsertIndex(key, value, m.rest, m.key);
    }
  }

  lemma {:induction false} SortWf(m: Members)
    requires WfMembers(m)
    ensures WfMembers(Sort(m))
  {
    if m.Member? {
      SortWf(m.rest);
      SortSorts(m.rest);
      InsertWf(m.key, m.value, Sort(m.rest));
    }
  }

  lemma {:induction false} PartsWf(m: Members)
    requires WfMembers(m)
    ensures WfMembers(Indices(m)) && WfMembers(Names(m))
  {
    if m.Member? {
      PartsWf(m.rest);
      GetIndices(m.rest, m.key);
      GetNames(m.rest, m.key);
      if IsIndex(m.key) { InsertWf(m.key, m.value, Indices(m.rest)); }
    }
  }

  lemma {:induction false} AppendWf(a: Members, b: Members)
    requires WfMembers(a) && WfMembers(b) && forall k :: Get(a, k).None? || Get(b, k).None?
    ensures WfMembers(Append(a, b))
  {
    if a.Member? {
      forall k ensures Get(a.rest, k).None? || Get(b, k).None? { assert Get(a, k).None? || Get(b, k).None?; }
      AppendWf(a.rest, b);
      GetAppend(a.rest, b, a.key);
      assert Get(a, a.key).Some?;
    }
  }

  lemma {:induction false} FromEntriesWf(m: Members)
    requires WfMembers(m)
    ensures WfMembers(FromEntries(m))
  {
    PartsWf(m);
    forall k ensures Get(Indices(m), k).None? || Get(Names(m), k).None? { GetIndices(m, k); GetNames(m, k); }
    AppendWf(Indices(m), Names(m));
  }

  // ---------------------------------------------------------------------
  // The canonical value denotes the same value
  // ---------------------------------------------------------------------

  lemma {:induction false} CanonWf(v: Json)
    requires Wf(v)
    ensures Wf(Canon(v))
  {
    match v
    case Arr(items) => CanonItemsWf(items);
    case Obj(members) =>
      CanonMembersWf(members);
      SortWf(CanonMembers(members));
      FromEntriesWf(Sort(CanonMembers(members)));
    case _ =>
  }

  lemma {:induction false} CanonItemsWf(l: Items)
    requires WfItems(l)
    ensures WfItems(CanonItems(l))
  {
    if l.Item? { CanonWf(l.head); CanonItemsWf(l.tail); }
  }

  lemma {:induction false} CanonMembersWf(m: Members)
    requires WfMembers(m)
    ensures WfMembers(CanonMembers(m))
  {
    if m.Member? { CanonWf(m.value); CanonMembersWf(m.rest); GetCanon(m.rest, m.key); }
  }

  lemma {:induction false} GetCanon(m: Members, k: Text)
    ensures Get(CanonMembers(m), k) == if Get(m, k).Some? then Some(Canon(Get(m, k).value)) else None
  {
    if m.Member? { GetCanon(m.rest, k); }
  }

  lemma {:induction false} DenoteGet(m: Members, k: Text)
    ensures k in DenoteMembers(m) <==> Get(m, k).Some?
    ensures k in DenoteMembers(m) ==> DenoteMembers(m)[k] == Denote(Get(m, k).value)
  {
    if m.Member? { DenoteGet(m.rest, k); }
  }

  /** Objects denote the same map if their members have the same meanings. */
  lemma {:induction false} SameMap(a: Members, b: Members)
    requires forall k :: Get(a, k).Some? == Get(b, k).Some?
    requires forall k :: Get(a, k).Some? ==> Denote(Get(a, k).value) == Denote(Get(b, k).value)
    ensures DenoteMembers(a) == DenoteMembers(b)
  {
    forall k ensures k in DenoteMembers(a) <==> k in DenoteMembers(b) { DenoteGet(a, k); DenoteGet(b, k); }
    forall k | k in DenoteMembers(a) ensures DenoteMembers(a)[k] == DenoteMembers(b)[k]
      { DenoteGet(a, k); DenoteGet(b, k); }
  }

  lemma {:induction false} CanonDenotes(v: Json)
    requires Wf(v)
    ensures Denote(Canon(v)) == Denote(v)
  {
    match v
    case Arr(items) => CanonItemsDenotes(items);
    case Obj(members) =>
      var m' := FromEntries(Sort(CanonMembers(members)));
      CanonMembersWf(members);
      forall k ensures Get(m', k) == Get(CanonMembers(members), k) { CanonGet(members, k); }
      CanonMembersDenotes(members);
      SameMap(m', CanonMembers(members));
    case _ =>
  }

  lemma {:induction false} CanonGet(m: Members, k: Text)
    requires WfMembers(m)
    ensures Get(FromEntries(Sort(CanonMembers(m))), k) == Get(CanonMembers(m), k)
  {
    CanonMembersWf(m);
    SortWf(CanonMembers(m));
    SortSorts(CanonMembers(m));
    GetFromEntries(Sort(CanonMembers(m)), k);
  }

  lemma {:induction false} CanonItemsDenotes(l: Items)
    requires WfItems(l)
    ensures DenoteItems(CanonItems(l)) == DenoteItems(l)
  {
    if l.Item? { CanonDenotes(l.head); CanonItemsDenotes(l.tail); }
  }

  lemma {:induction false} CanonMembersDenotes(m: Members)
    requires WfMembers(m)
    ensures DenoteMembers(CanonMembers(m)) == DenoteMembers(m)
  {
    if m.Member? { CanonDenotes(m.value); CanonMembersDenotes(m.rest); }
  }

  // ---------------------------------------------------------------------
  // Values with one meaning have one canonical value
  // ---------------------------------------------------------------------

  lemma {:induction false} SameCanon(v: Json, w: Json)
    requires Wf(v) && Wf(w) && Denote(v) == Denote(w)
    ensures Canon(v) == Canon(w)
  {
    match v
    case Arr(items) => SameCanonItems(items, w.items);
    case Obj(members) =>
      var a, b := CanonMembers(members), CanonMembers(w.members);
      CanonMembersWf(members);
      CanonMembersWf(w.members);
      SortSorts(a);
      SortSorts(b);
      forall k ensures Get(Sort(a), k) == Get(Sort(b), k) {
        GetCanon(members, k);
        GetCanon(w.members, k);
        SameCanonMember(members, w.members, k);
      }
      SortedUnique(Sort(a), Sort(b));
    case _ =>
  }

  lemma {:induction false} SameCanonItems(l: Items, r: Items)
    requires WfItems(l) && WfItems(r) && DenoteItems(l) == DenoteItems(r)
    ensures CanonItems(l) == CanonItems(r)
  {
    if l.Item? {
      assert r.Item?;
      assert DenoteItems(l)[0] == DenoteItems(r)[0] && DenoteItems(l)[1..] == DenoteItems(r)[1..];
      SameCanon(l.head, r.head);
      SameCanonItems(l.tail, r.tail);
    }
  }

  /** The member `k` of two objects that denote the same map. */
  lemma {:induction false} SameCanonMember(a: Members, b: Members, k: Text)
    requires WfMembers(a) && WfMembers(b) && DenoteMembers(a) == DenoteMembers(b)
    ensures Get(a, k).Some? == Get(b, k).Some?
    ensures Get(a, k).Some? ==> Canon(Get(a, k).value) == Canon(Get(b, k).value)
  {
    DenoteGet(a, k);
    DenoteGet(b, k);
    if Get(a, k).Some? {
      GetSmaller(a, k);
      GetSmaller(b, k);
      SameCanon(Get(a, k).value, Get(b, k).value);
    }
  }

  lemma {:induction false} GetSmaller(m: Members, k: Text)
    requires WfMembers(m) && Get(m, k).Some?
    ensures Get(m, k).value < m && Wf(Get(m, k).value)
  {
    if m.key != k { GetSmaller(m.rest, k); }
  }

  // ---------------------------------------------------------------------
  // Reading a text back (RFC 8259, sections 3 to 7, without white space)
  // ---------------------------------------------------------------------

  /** What stands in front of the code units that are left. */
  datatype Parsed<T> = Parsed(value: T, rest: Text)

  /** The value of a hexadecimal digit, or -1. */
  function HexValue(c: int): int {
    if IsDigit(c) then c - 48 else if 97 <= c <= 102 then c - 87 else if 65 <= c <= 70 then c - 55 else -1
  }

  /** What a letter behind a backslash stands for, or -1. */
  function Unescaped(c: int): int {
    if c == QUOTE || c == BACKSLASH || c == 47 then c
    else if c == 98 then 8 else if c == 102 then 12 else if c == 110 then 10 else if c == 114 then 13
    else if c == 116 then 9 else -1
  }

  /** One code unit of a string. */
  function ReadUnit(t: Text): (r: Option<Parsed<int>>)
    ensures r.Some? ==> |r.value.rest| < |t|
  {
    if t == [] || t[0] < 32 || t[0] == QUOTE then None
    else if t[0] != BACKSLASH then Some(Parsed(t[0], t[1..]))
    else if |t| >= 2 && Unescaped(t[1]) >= 0 then Some(Parsed(Unescaped(t[1]), t[2..]))
    else if |t| >= 6 && t[1] == 117 && (forall i :: 2 <= i < 6 ==> HexValue(t[i]) >= 0) then
      Some(Parsed(4096 * HexValue(t[2]) + 256 * HexValue(t[3]) + 16 * HexValue(t[4]) + HexValue(t[5]), t[6..]))
    else None
  }

  /** A string behind its opening quotation mark. */
  function ReadText(t: Text): (r: Option<Parsed<Text>>)
    ensures r.Some? ==> |r.value.rest| < |t|
    decreases |t|
  {
    if t != [] && t[0] == QUOTE then Some(Parsed([], t[1..]))
    else
      var c := ReadUnit(t);
      if c.None? then None
      else
        var more := ReadText(c.value.rest);
        if more.None? then None else Some(Parsed([c.value.value] + more.value.value, more.value.rest))
  }

  /** How many characters of a number a text begins with. */
  function Lead(t: Text): (n: nat)
    ensures n <= |t|
  {
    if t == [] || !NumberChar(t[0]) then 0 else 1 + Lead(t[1..])
  }

  function ReadWord(t: Text, word: Text, v: Json): (r: Option<Parsed<Json>>)
    requires word != []
    ensures r.Some? ==> |r.value.rest| < |t|
  {
    if word <= t then Some(Parsed(v, t[|word|..])) else None
  }

  function ReadNumber(t: Text): (r: Option<Parsed<Json>>)
    ensures r.Some? ==> |r.value.rest| < |t|
  {
    if Lead(t) == 0 then None else Some(Parsed(Num(t[..Lead(t)]), t[Lead(t)..]))
  }

  function ReadValue(t: Text): (r: Option<Parsed<Json>>)
    ensures r.Some? ==> |r.value.rest| < |t|
    decreases |t|, 0
  {
    if t == [] then None
    else if t[0] == 110 then ReadWord(t, [110, 117, 108, 108], Null)
    else if t[0] == 116 then ReadWord(t, [116, 114, 117, 101], Bool(true))
    else if t[0] == 102 then ReadWord(t, [102, 97, 108, 115, 101], Bool(false))
    else if t[0] == QUOTE then
      var s := ReadText(t[1..]);
      if s.None? then None else Some(Parsed(Str(s.value.value), s.value.rest))
    else if t[0] == 91 then
      if |t| > 1 && t[1] == 93 then Some(Parsed(Arr(NoItem), t[2..]))
      else
        var l := ReadItems(t[1..]);
        if l.None? then None else Some(Parsed(Arr(l.value.value), l.value.rest))
    else if t[0] == 123 then
      if |t| > 1 && t[1] == 125 then Some(Parsed(Obj(NoMember), t[2..]))
      else
        var m := ReadMembers(t[1..]);
        if m.None? then None else Some(Parsed(Obj(m.value.value), m.value.rest))
    else ReadNumber(t)
  }

  /** At least one element, and the closing bracket. */
  function ReadItems(t: Text): (r: Option<Parsed<Items>>)
    ensures r.Some? ==> |r.value.rest| < |t|
    decreases |t|, 1
  {
    var v := ReadValue(t);
    if v.None? || v.value.rest == [] then None
    else if v.value.rest[0] == 93 then Some(Parsed(Item(v.value.value, NoItem), v.value.rest[1..]))
    else if v.value.rest[0] != COMMA then None
    else
      var l := ReadItems(v.value.rest[1..]);
      if l.None? then None else Some(Parsed(Item(v.value.value, l.value.value), l.value.rest))
  }

  /** At least one member, and the closing bracket. */
  function ReadMembers(t: Text): (r: Option<Parsed<Members>>)
    ensures r.Some? ==> |r.value.rest| < |t|
    decreases |t|, 1
  {
    var k := if t != [] && t[0] == QUOTE then ReadText(t[1..]) else None;
    if k.None? || k.value.rest == [] || k.value.rest[0] != COLON then None
    else
      var v := ReadValue(k.value.rest[1..]);
      if v.None? || v.value.rest == [] then None
      else if v.value.rest[0] == 125 then
        Some(Parsed(Member(k.value.value, v.value.value, NoMember), v.value.rest[1..]))
      else if v.value.rest[0] != COMMA then None
      else
        var m := ReadMembers(v.value.rest[1..]);
        if m.None? then None else Some(Parsed(Member(k.value.value, v.value.value, m.value.value), m.value.rest))
  }

  // ---- strings ----

  lemma {:induction false} HexBack(d: int)
    requires 0 <= d < 16
    ensures HexValue(HexDigit(d)) == d
  {
  }

  /** Four hexadecimal digits make up a code unit. */
  lemma {:induction false} Digits(a: int)
    requires 0 <= a < 0x1_0000
    ensures a == 4096 * (a / 4096 % 16) + 256 * (a / 256 % 16) + 16 * (a / 16 % 16) + a % 16
  {
    OneDigit(a);
    OneDigit(a / 16);
    OneDigit(a / 256);
    assert a / 256 == a / 16 / 16 && a / 4096 == a / 256 / 16;
    assert a / 4096 < 16;
  }

  lemma {:induction false} OneDigit(a: int)
    requires a >= 0
    ensures a == 16 * (a / 16) + a % 16
  {
  }

  lemma {:induction false} HexReads(c: int, x: Text)
    requires 0 <= c < 0x1_0000
    ensures ReadUnit([BACKSLASH, 117] + Hex(c) + x) == Some(Parsed(c, x))
  {
    var t := [BACKSLASH, 117] + Hex(c) + x;
    var a, b, e, f := c / 4096 % 16, c / 256 % 16, c / 16 % 16, c % 16;
    HexBack(a);
    HexBack(b);
    HexBack(e);
    HexBack(f);
    Digits(c);
    assert t[2] == HexDigit(a) && t[3] == HexDigit(b) && t[4] == HexDigit(e) && t[5] == HexDigit(f);
    assert t[6..] == x;
  }

  lemma {:induction false} UnitReads(c: int, x: Text)
    requires 0 <= c < 0x1_0000
    ensures ReadUnit(Unit(c) + x) == Some(Parsed(c, x))
    ensures (Unit(c) + x)[0] != QUOTE
  {
    if Letter(c) != 0 {
      var t := [BACKSLASH, Letter(c)] + x;
      assert t[0] == BACKSLASH && t[1] == Letter(c) && t[2..] == x;
    } else if c < 32 || High(c) || Low(c) {
      HexReads(c, x);
    } else {
      var t := [c] + x;
      assert t[0] == c && t[1..] == x;
    }
  }

  lemma {:induction false} PlainReads(c: int, x: Text)
    requires c >= 32 && c != QUOTE && c != BACKSLASH
    ensures ReadUnit([c] + x) == Some(Parsed(c, x))
  {
    assert ([c] + x)[1..] == x;
  }

  lemma {:induction false} TextStep(t: Text, c: int, y: Text, s: Text, x: Text)
    requires t != [] && t[0] != QUOTE && ReadUnit(t) == Some(Parsed(c, y)) && ReadText(y) == Some(Parsed(s, x))
    ensures ReadText(t) == Some(Parsed([c] + s, x))
  {
  }

  lemma {:induction false} PairText(s: Text, x: Text)
    requires Paired(s)
    ensures Quoted(s) + x == [s[0]] + ([s[1]] + (Quoted(s[2..]) + x))
    ensures [s[0]] + ([s[1]] + s[2..]) == s
  {
    assert Escaped(s) == [s[0], s[1]] + Escaped(s[2..]);
  }

  lemma {:induction false} UnitText(s: Text, x: Text)
    requires s != [] && !Paired(s)
    ensures Quoted(s) + x == Unit(s[0]) + (Quoted(s[1..]) + x)
    ensures [s[0]] + s[1..] == s
  {
    assert Escaped(s) == Unit(s[0]) + Escaped(s[1..]);
  }

  lemma {:induction false} UnitStep(c: int, y: Text, s: Text, x: Text)
    requires 0 <= c < 0x1_0000 && ReadText(y) == Some(Parsed(s, x))
    ensures ReadText(Unit(c) + y) == Some(Parsed([c] + s, x))
  {
    UnitReads(c, y);
    TextStep(Unit(c) + y, c, y, s, x);
  }

  lemma {:induction false} PlainStep(c: int, y: Text, s: Text, x: Text)
    requires c >= 32 && c != QUOTE && c != BACKSLASH && ReadText(y) == Some(Parsed(s, x))
    ensures ReadText([c] + y) == Some(Parsed([c] + s, x))
  {
    PlainReads(c, y);
    assert ([c] + y)[0] == c;
    TextStep([c] + y, c, y, s, x);
  }

  lemma {:induction false} EndReads(x: Text)
    ensures ReadText(Quoted([]) + x) == Some(Parsed([], x))
  {
    var t := Quoted([]) + x;
    assert t[0] == QUOTE && t[1..] == x;
  }

  lemma {:induction false} QuotedReads(s: Text, x: Text)
    requires IsText(s)
    ensures ReadText(Quoted(s) + x) == Some(Parsed(s, x))
    decreases |s|
  {
    if s == [] {
      EndReads(x);
    } else if Paired(s) {
      QuotedReads(s[2..], x);
      PairText(s, x);
      PlainStep(s[1], Quoted(s[2..]) + x, s[2..], x);
      PlainStep(s[0], [s[1]] + (Quoted(s[2..]) + x), [s[1]] + s[2..], x);
    } else {
      QuotedReads(s[1..], x);
      UnitText(s, x);
      UnitStep(s[0], Quoted(s[1..]) + x, s[1..], x);
    }
  }

  // ---- numbers ----

  /** Nothing, or a character that ends a number. */
  predicate Delimited(x: Text) {
    x == [] || x[0] == COMMA || x[0] == 93 || x[0] == 125
  }

  lemma {:induction false} LeadIs(a: Text, x: Text)
    requires (forall i :: 0 <= i < |a| ==> NumberChar(a[i])) && Delimited(x)
    ensures Lead(a + x) == |a|
  {
    if a == [] {
      assert a + x == x;
    } else {
      LeadIs(a[1..], x);
      assert (a + x)[1..] == a[1..] + x;
    }
  }

  lemma {:induction false} NumberReads(a: Text, x: Text)
    requires IsLexeme(a) && Delimited(x)
    ensures ReadValue(a + x) == Some(Parsed(Num(a), x))
  {
    LeadIs(a, x);
    assert (a + x)[0] == a[0] && (a + x)[..|a|] == a && (a + x)[|a|..] == x;
    assert ReadValue(a + x) == ReadNumber(a + x);
  }

  // ---- values ----

  lemma {:induction false} Behind(c: int, a: Text, x: Text)
    ensures ([c] + a) + x == [c] + (a + x) && ([c] + (a + x))[1..] == a + x
  {
  }

  lemma {:induction false} WordReads(word: Text, v: Json, x: Text)
    requires word != []
    ensures ReadWord(word + x, word, v) == Some(Parsed(v, x))
  {
    assert (word + x)[|word|..] == x;
  }

  lemma {:induction false} StringReads(s: Text, x: Text)
    requires IsText(s)
    ensures ReadValue([QUOTE] + Quoted(s) + x) == Some(Parsed(Str(s), x))
  {
    Behind(QUOTE, Quoted(s), x);
    QuotedReads(s, x);
  }

  /** Where a value starts, neither a bracket nor a brace is closed. */
  lemma {:induction false} FirstUnit(v: Json)
    requires Wf(v)
    ensures Ser(v) != [] && Ser(v)[0] != 93 && Ser(v)[0] != 125
  {
  }

  /** The serializer's text of every well-formed value is read back as that value, and nothing behind it is
      touched. */
  lemma {:induction false} ReadsBack(v: Json, x: Text)
    requires Wf(v) && Delimited(x)
    ensures ReadValue(Ser(v) + x) == Some(Parsed(v, x))
    decreases v
  {
    match v
    case Null => WordReads([110, 117, 108, 108], Null, x);
    case Bool(b) =>
      WordReads([116, 114, 117, 101], Bool(true), x);
      WordReads([102, 97, 108, 115, 101], Bool(false), x);
    case Num(lexeme) => NumberReads(lexeme, x);
    case Str(s) => StringReads(s, x);
    case Arr(items) =>
      if items.Item? { ItemsReadBack(items, x); }
      ArrayReads(items, x);
    case Obj(members) =>
      if members.Member? { MembersReadBack(members, x); }
      ObjectReads(members, x);
  }

  lemma {:induction false} ArrayReads(items: Items, x: Text)
    requires WfItems(items)
    requires items.Item? ==> ReadItems(SerItems(items) + x) == Some(Parsed(items, x))
    ensures ReadValue(Ser(Arr(items)) + x) == Some(Parsed(Arr(items), x))
  {
    var t := [91] + (SerItems(items) + x);
    Behind(91, SerItems(items), x);
    if items.Item? {
      FirstUnit(items.head);
      assert t[1] == Ser(items.head)[0];
    } else {
      assert t[1] == 93 && t[2..] == x;
    }
  }

  lemma {:induction false} MembersHead(m: Members, x: Text)
    ensures SerMembers(m) + x != [] && (SerMembers(m) + x)[0] == if m.NoMember? then 125 else QUOTE
    ensures m.NoMember? ==> (SerMembers(m) + x)[1..] == x
  {
    if m.Member? { MemberText(m, x); }
  }

  lemma {:induction false} ObjectReads(members: Members, x: Text)
    requires members.Member? ==> ReadMembers(SerMembers(members) + x) == Some(Parsed(members, x))
    ensures ReadValue(Ser(Obj(members)) + x) == Some(Parsed(Obj(members), x))
  {
    var y := SerMembers(members) + x;
    Behind(123, SerMembers(members), x);
    MembersHead(members, x);
    assert ([123] + y)[1] == y[0] && ([123] + y)[2..] == y[1..];
  }

  /** What follows an element: the end, or a comma and the other elements. */
  function AfterItem(tail: Items): Text {
    if tail.NoItem? then [93] else [COMMA] + SerItems(tail)
  }

  lemma {:induction false} ItemText(l: Items, x: Text)
    requires l.Item?
    ensures SerItems(l) + x == Ser(l.head) + (AfterItem(l.tail) + x)
    ensures Delimited(AfterItem(l.tail) + x)
  {
  }

  lemma {:induction false} AfterItemIs(tail: Items, x: Text)
    ensures var t := AfterItem(tail) + x;
      t != [] && t[0] == (if tail.NoItem? then 93 else COMMA)
      && t[1..] == if tail.NoItem? then x else SerItems(tail) + x
  {
    if tail.Item? { Behind(COMMA, SerItems(tail), x); }
  }

  lemma {:induction false} ItemsReadBack(l: Items, x: Text)
    requires WfItems(l) && l.Item?
    ensures ReadItems(SerItems(l) + x) == Some(Parsed(l, x))
    decreases l
  {
    ItemText(l, x);
    ReadsBack(l.head, AfterItem(l.tail) + x);
    if l.tail.Item? { ItemsReadBack(l.tail, x); }
    AfterItemIs(l.tail, x);
  }

  function AfterMember(rest: Members): Text {
    if rest.NoMember? then [125] else [COMMA] + SerMembers(rest)
  }

  lemma {:induction false} MemberText(m: Members, x: Text)
    requires m.Member?
    ensures SerMembers(m) + x == [QUOTE] + (Quoted(m.key) + ([COLON] + (Ser(m.value) + (AfterMember(m.rest) + x))))
  {
    assert SerMembers(m) == SerMember(m.key, Ser(m.value)) + AfterMember(m.rest);
    Nested([QUOTE], Quoted(m.key), [COLON], Ser(m.value), AfterMember(m.rest), x);
  }

  lemma {:induction false} Nested(a: Text, q: Text, c: Text, v: Text, r: Text, x: Text)
    ensures ((a + (q + (c + v))) + r) + x == a + (q + (c + (v + (r + x))))
  {
  }

  lemma {:induction false} AfterMemberIs(rest: Members, x: Text)
    ensures var t := AfterMember(rest) + x;
      t != [] && t[0] == (if rest.NoMember? then 125 else COMMA) && Delimited(t)
      && t[1..] == if rest.NoMember? then x else SerMembers(rest) + x
  {
    if rest.Member? { Behind(COMMA, SerMembers(rest), x); }
  }

  /** A key, a colon, and what is behind them. */
  lemma {:induction false} KeyReads(key: Text, y: Text)
    requires IsText(key)
    ensures var t := [QUOTE] + (Quoted(key) + ([COLON] + y));
      t[0] == QUOTE && ReadText(t[1..]) == Some(Parsed(key, [COLON] + y)) && ([COLON] + y)[1..] == y
  {
    QuotedReads(key, [COLON] + y);
    assert ([QUOTE] + (Quoted(key) + ([COLON] + y)))[1..] == Quoted(key) + ([COLON] + y);
  }

  /** One member in front of `y`. */
  lemma {:induction false} MemberStep(t: Text, key: Text, y: Text, v: Json, z: Text, m: Members, x: Text)
    requires t != [] && t[0] == QUOTE && ReadText(t[1..]) == Some(Parsed(key, [COLON] + y)) && ([COLON] + y)[1..] == y
    requires ReadValue(y) == Some(Parsed(v, z)) && z != []
    requires if m.NoMember? then z[0] == 125 && z[1..] == x
             else z[0] == COMMA && ReadMembers(z[1..]) == Some(Parsed(m, x))
    ensures ReadMembers(t) == Some(Parsed(Member(key, v, m), x))
  {
  }

  lemma {:induction false} MembersReadBack(m: Members, x: Text)
    requires WfMembers(m) && m.Member?
    ensures ReadMembers(SerMembers(m) + x) == Some(Parsed(m, x))
    decreases m
  {
    var z := AfterMember(m.rest) + x;
    MemberText(m, x);
    AfterMemberIs(m.rest, x);
    KeyReads(m.key, Ser(m.value) + z);
    ReadsBack(m.value, z);
    if m.rest.Member? { MembersReadBack(m.rest, x); }
    MemberStep(SerMembers(m) + x, m.key, Ser(m.value) + z, m.value, z, m.rest, x);
  }

  /** So the serializer is injective, in front of whatever may follow a value. */
  lemma {:induction false} SerInjective(v: Json, w: Json, x: Text, y: Text)
    requires Wf(v) && Wf(w) && Delimited(x) && Delimited(y) && Ser(v) + x == Ser(w) + y
    ensures v == w && x == y
  {
    ReadsBack(v, x);
    ReadsBack(w, y);
  }

  // ---------------------------------------------------------------------
  // Main results
  // ---------------------------------------------------------------------

  lemma {:induction false} WfIsLossless(v: Json)
    requires Wf(v)
    ensures Lossless(v)
  {
    match v
    case Arr(items) => WfItemsLossless(items);
    case Obj(members) => WfMembersLossless(members);
    case _ =>
  }

  lemma {:induction false} WfItemsLossless(l: Items)
    requires WfItems(l)
    ensures LosslessItems(l)
  {
    if l.Item? { WfIsLossless(l.head); WfItemsLossless(l.tail); }
  }

  lemma {:induction false} WfMembersLossless(m: Members)
    requires WfMembers(m)
    ensures LosslessMembers(m)
  {
    if m.Member? { WfIsLossless(m.value); WfMembersLossless(m.rest); }
  }

  /** A true canonical form: two finite JSON values have the same canonical text exactly if they are the
      same value up to the order of object keys. */
  lemma {:induction false} CanonicalIff(v: Json, w: Json)
    requires Wf(v) && Wf(w)
    ensures CanonicalJson(v) == CanonicalJson(w) <==> Denote(v) == Denote(w)
    ensures CanonicalJson(v).Some?
  {
    WfIsLossless(v);
    WfIsLossless(w);
    CanonWf(v);
    CanonWf(w);
    if Ser(Canon(v)) == Ser(Canon(w)) {
      assert Ser(Canon(v)) + [] == Ser(Canon(w)) + [];
      SerInjective(Canon(v), Canon(w), [], []);
      CanonDenotes(v);
      CanonDenotes(w);
    }
    if Denote(v) == Denote(w) { SameCanon(v, w); }
  }

  /** Reading the canonical text gives a value of the same meaning. */
  lemma {:induction false} CanonicalRoundTrip(v: Json)
    requires Wf(v)
    ensures CanonicalJson(v).Some?
    ensures var r := ReadValue(CanonicalJson(v).value);
      r.Some? && r.value.rest == [] && r.value.value == Canon(v) && Denote(r.value.value) == Denote(v)
  {
    WfIsLossless(v);
    CanonWf(v);
    CanonDenotes(v);
    ReadsBack(Canon(v), []);
    assert Ser(Canon(v)) + [] == Ser(Canon(v));
  }

  /** Canonicalising twice changes nothing. */
  lemma {:induction false} CanonIdempotent(v: Json)
    requires Wf(v)
    ensures Canon(Canon(v)) == Canon(v)
  {
    CanonWf(v);
    CanonDenotes(v);
    SameCanon(Canon(v), v);
  }

  // ---- grants ----

  datatype Call = Call(requestId: Text, connectionRef: Text, profileRef: Text, operationId: Text, resourceRef: Text,
    providerId: Option<Text>, arguments: Json)

  datatype GrantRequest = GrantRequest(requestId: Text, connectionRef: Text, profileRef: Text, operationId: Text,
    resourceRef: Text, providerId: Text, digest: Text, arguments: Json)

  /** `assertGrantBinding`: does the grant pass? Values that are not lossless throw. */
  function Binds(g: GrantRequest, c: Call, sha256: Text -> Text): bool {
    var expected := CanonicalJson(c.arguments);
    && expected.Some?
    && g.requestId == c.requestId && g.connectionRef == c.connectionRef && g.profileRef == c.profileRef
    && g.operationId == c.operationId && g.resourceRef == c.resourceRef
    && g.digest == sha256(expected.value)
    && (c.providerId.Some? ==> g.providerId == c.providerId.value)
    && CanonicalJson(g.arguments) == expected
  }

  /** For every grant, also a damaged or forged one: a call passes exactly if the references agree, the arguments
      are the granted ones up to key order, and the digest is that of the granted arguments. */
  lemma {:induction false} BindsIff(g: GrantRequest, c: Call, sha256: Text -> Text)
    requires Wf(g.arguments) && Wf(c.arguments)
    ensures CanonicalJson(g.arguments).Some?
    ensures Binds(g, c, sha256) <==>
      && Denote(g.arguments) == Denote(c.arguments)
      && g.digest == sha256(CanonicalJson(g.arguments).value)
      && g.requestId == c.requestId && g.connectionRef == c.connectionRef && g.profileRef == c.profileRef
      && g.operationId == c.operationId && g.resourceRef == c.resourceRef
      && (c.providerId == None || c.providerId == Some(g.providerId))
  {
    CanonicalIff(g.arguments, c.arguments);
  }
}
