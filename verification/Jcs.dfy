/** The RFC 8785 printer of src/jcs-independent.ts, and the concrete syntax tree it prints. */
module Jcs {
  import opened Wrappers
  import opened CodeUnits
  import opened Json
  import opened Grammar
  import opened JcsStrings

  /** A member name with something for its value: its text, or its tree. */
  datatype Entry<T> = Entry(name: Text, value: T)

  // ---------------------------------------------------------------- the order of member names

  /** `a` comes before `b` by code units. */
  predicate Before(a: Text, b: Text) {
    b != [] && (a == [] || a[0] < b[0] || (a[0] == b[0] && Before(a[1..], b[1..])))
  }

  lemma {:induction false} SharedPrefix(a: Text, b: Text, i: nat)
    requires i <= |a| && i <= |b| && a[..i] == b[..i]
    ensures Before(a, b) == Before(a[i..], b[i..])
    decreases i
  {
    if i == 0 {
      assert a[0..] == a && b[0..] == b;
    } else {
      assert a[0] == a[..i][0] == b[..i][0] == b[0];
      assert a[1..][..i - 1] == a[..i][1..] == b[..i][1..] == b[1..][..i - 1];
      SharedPrefix(a[1..], b[1..], i - 1);
      assert a[1..][i - 1..] == a[i..] && b[1..][i - 1..] == b[i..];
    }
  }

  /** Negative, zero or positive as `a` comes before, is, or comes after `b`. */
  method CompareCodeUnits(a: Text, b: Text) returns (d: int)
    ensures d < 0 <==> Before(a, b)
    ensures d == 0 <==> a == b
    ensures d > 0 <==> Before(b, a)
  {
    var len := if |a| < |b| then |a| else |b|;
    var i := 0;
    while i < len
      invariant 0 <= i <= len && a[..i] == b[..i]
    {
      SharedPrefix(a, b, i);
      SharedPrefix(b, a, i);
      d := a[i] as int - b[i] as int;
      if d != 0 {
        return;
      }
      assert a[..i + 1] == a[..i] + [a[i]] == b[..i + 1];
      i := i + 1;
    }
    SharedPrefix(a, b, i);
    SharedPrefix(b, a, i);
    assert a == a[..i] + a[i..] && b == b[..i] + b[i..];
    return |a| - |b|;
  }

  lemma {:induction false} BeforeTrichotomy(a: Text, b: Text)
    ensures Before(a, b) || a == b || Before(b, a)
    ensures !(Before(a, b) && Before(b, a)) && !Before(a, a)
    decreases a
  {
    if a != [] {
      BeforeTrichotomy(a[1..], a[1..]);
      if b != [] {
        BeforeTrichotomy(a[1..], b[1..]);
        if a[0] == b[0] && a[1..] == b[1..] {
          assert a == [a[0]] + a[1..] == b;
        }
      }
    }
  }

  lemma {:induction false} BeforeTransitive(a: Text, b: Text, c: Text)
    requires Before(a, b) && Before(b, c)
    ensures Before(a, c)
    decreases a
  {
    if a != [] && a[0] == b[0] && b[0] == c[0] {
      BeforeTransitive(a[1..], b[1..], c[1..]);
    }
  }

  function Insert<T>(e: Entry<T>, sorted: seq<Entry<T>>): seq<Entry<T>> {
    if sorted == [] || !Before(sorted[0].name, e.name) then [e] + sorted
    else [sorted[0]] + Insert(e, sorted[1..])
  }

  /** `keys.sort(compareCodeUnits)`, each key with its value. */
  function SortByName<T>(entries: seq<Entry<T>>): seq<Entry<T>> {
    if entries == [] then [] else Insert(entries[0], SortByName(entries[1..]))
  }

  // ---------------------------------------------------------------- printing

  /** `texts.join(',')`. */
  function Join(texts: seq<Text>): Text {
    if texts == [] then []
    else if |texts| == 1 then texts[0]
    else texts[0] + [COMMA] + Join(texts[1..])
  }

  /** `serializeNumber`, for a number it does not refuse. */
  function PrintedNumber(n: Number): Text
    requires !n.NonFinite?
  {
    if n.NegativeZero? then [0x30] else n.token
  }

  function PrintedString(s: Text): Text {
    QuotedText(ItemsOf(s))
  }

  function PrintedMember(e: Entry<Text>): Text {
    PrintedString(e.name) + [COLON] + e.value
  }

  function PrintedMembers(entries: seq<Entry<Text>>): (texts: seq<Text>)
    ensures |texts| == |entries|
  {
    seq(|entries|, i requires 0 <= i < |entries| => PrintedMember(entries[i]))
  }

  /** The canonical text; none where the printer throws. */
  function Canonicalize(j: Json): Option<Text> {
    match j
    case Null => Some(Lit("null"))
    case Bool(value) => Some(if value then Lit("true") else Lit("false"))
    case Num(n) => if n.NonFinite? then None else Some(PrintedNumber(n))
    case Str(s) => if WellFormed(s) then Some(PrintedString(s)) else None
    case Arr(items) =>
      match CanonicalItems(items) {
        case None => None
        case Some(texts) => Some([LEFT_BRACKET] + Join(texts) + [RIGHT_BRACKET])
      }
    case Obj(members) =>
      match CanonicalMembers(members)
      case None => None
      case Some(entries) => Some([LEFT_BRACE] + Join(PrintedMembers(SortByName(entries))) + [RIGHT_BRACE])
  }

  function CanonicalItems(items: seq<Json>): Option<seq<Text>> {
    if items == [] then Some([])
    else
      var first := Canonicalize(items[0]);
      var rest := CanonicalItems(items[1..]);
      if first.None? || rest.None? then None else Some([first.value] + rest.value)
  }

  function CanonicalMembers(members: seq<Member>): Option<seq<Entry<Text>>> {
    if members == [] then Some([])
    else
      var first := Canonicalize(members[0].value);
      var rest := CanonicalMembers(members[1..]);
      if !WellFormed(members[0].name) || first.None? || rest.None? then None
      else Some([Entry(members[0].name, first.value)] + rest.value)
  }

  // ---------------------------------------------------------------- the tree that is printed

  /** What the printer accepts: every number finite, every string and member name well formed. */
  predicate Canonicalizable(j: Json) {
    match j
    case Null => true
    case Bool(_) => true
    case Num(n) => !n.NonFinite?
    case Str(s) => WellFormed(s)
    case Arr(items) => forall i | 0 <= i < |items| :: Canonicalizable(items[i])
    case Obj(members) => forall i | 0 <= i < |members| :: Printable(members[i])
  }

  predicate Printable(m: Member) {
    WellFormed(m.name) && Canonicalizable(m.value)
  }

  /** No object has two members of one name: all a JavaScript object can be. */
  predicate Distinct(j: Json) {
    match j
    case Arr(items) => forall i | 0 <= i < |items| :: Distinct(items[i])
    case Obj(members) =>
      && (forall i | 0 <= i < |members| :: Distinct(members[i].value))
      && (forall i, k | 0 <= i < k < |members| :: members[i].name != members[k].name)
    case _ => true
  }

  /** How deep containers nest. */
  function Nesting(j: Json): nat {
    match j
    case Arr(items) => 1 + ItemsNesting(items)
    case Obj(members) => 1 + MembersNesting(members)
    case _ => 0
  }

  function ItemsNesting(items: seq<Json>): nat {
    if items == [] then 0 else Max(Nesting(items[0]), ItemsNesting(items[1..]))
  }

  function MembersNesting(members: seq<Member>): nat {
    if members == [] then 0 else Max(Nesting(members[0].value), MembersNesting(members[1..]))
  }

  function TokenOf(t: Text): Token
    requires |t| > 0 && AllBare(t)
  {
    t
  }

  function ElementsOf(values: seq<Value>): Elements
    requires |values| > 0
  {
    var slot := Slot([], values[0], []);
    if |values| == 1 then LastSlot(slot) else NextSlot(slot, ElementsOf(values[1..]))
  }

  function FieldOf(e: Entry<Value>): Field {
    Field([], ItemsOf(e.name), [], [], e.value, [])
  }

  function FieldsOf(entries: seq<Entry<Value>>): Fields
    requires |entries| > 0
  {
    var field := FieldOf(entries[0]);
    if |entries| == 1 then LastField(field) else NextField(field, FieldsOf(entries[1..]))
  }

  lemma LiteralsAreBare()
    ensures AllBare(Lit("null")) && AllBare(Lit("true")) && AllBare(Lit("false"))
  {
  }

  /** The tree the canonical text is the text of. */
  function Tree(j: Json): Value
    requires Canonicalizable(j)
  {
    match j
    case Null => LiteralsAreBare(); Bare(Lit("null"))
    case Bool(value) => LiteralsAreBare(); Bare(if value then Lit("true") else Lit("false"))
    case Num(n) => Bare(TokenOf(PrintedNumber(n)))
    case Str(s) => Quoted(ItemsOf(s))
    case Arr(items) => if items == [] then EmptyArray([]) else Array(ElementsOf(Trees(items)))
    case Obj(members) => if members == [] then EmptyObject([]) else Object(FieldsOf(SortedTrees(members)))
  }

  function Trees(items: seq<Json>): (values: seq<Value>)
    requires forall i | 0 <= i < |items| :: Canonicalizable(items[i])
    ensures |values| == |items|
  {
    seq(|items|, i requires 0 <= i < |items| => Tree(items[i]))
  }

  function MemberTree(m: Member): Entry<Value>
    requires Printable(m)
    decreases m
  {
    Entry(m.name, Tree(m.value))
  }

  function MemberTrees(members: seq<Member>): (entries: seq<Entry<Value>>)
    requires forall i | 0 <= i < |members| :: Printable(members[i])
    ensures |entries| == |members|
    decreases members, 0
  {
    seq(|members|, i requires 0 <= i < |members| => MemberTree(members[i]))
  }

  function SortedTrees(members: seq<Member>): (entries: seq<Entry<Value>>)
    requires forall i | 0 <= i < |members| :: Printable(members[i])
    ensures |entries| == |members|
    decreases members, 1
  {
    SortKeeps(MemberTrees(members));
    SortByName(MemberTrees(members))
  }

  lemma {:induction false} InsertKeeps<T>(e: Entry<T>, sorted: seq<Entry<T>>)
    ensures multiset(Insert(e, sorted)) == multiset{e} + multiset(sorted)
    ensures |Insert(e, sorted)| == |sorted| + 1
    decreases sorted
  {
    if sorted != [] && Before(sorted[0].name, e.name) {
      InsertKeeps(e, sorted[1..]);
      assert sorted == [sorted[0]] + sorted[1..];
    }
  }

  lemma {:induction false} SortKeeps<T>(entries: seq<Entry<T>>)
    ensures multiset(SortByName(entries)) == multiset(entries) && |SortByName(entries)| == |entries|
    decreases entries
  {
    if entries != [] {
      SortKeeps(entries[1..]);
      InsertKeeps(entries[0], SortByName(entries[1..]));
      assert entries == [entries[0]] + entries[1..];
    }
  }
}
