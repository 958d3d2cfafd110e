/** What a text of the grammar says as a JSON value. The canonical printer is held to it: its text is in the one form
    RFC 8785 allows, and says the value it was given. */
module Denotation {
  import opened Wrappers
  import opened CodeUnits
  import opened Json
  import opened Grammar
  import opened Scanning
  import opened JcsStrings
  import opened Jcs
  import opened JcsPrinting
  import opened JcsCanonical

  /** A literal by its word, and a number by the text it is known by. */
  function DenotedToken(token: Token): Option<Json> {
    if token == Lit("null") then Some(Null)
    else if token == Lit("true") then Some(Bool(true))
    else if token == Lit("false") then Some(Bool(false))
    else if IsNumberText(token) then Some(Num(Finite(token)))
    else None
  }

  /** The value a tree writes: elements and members in the order they are written, strings and names decoded. */
  function Denoted(v: Value): Option<Json> {
    match v
    case Bare(token) => DenotedToken(token)
    case Quoted(items) => Some(Str(Decoded(items)))
    case EmptyArray(_) => Some(Arr([]))
    case Array(elements) =>
      match DenotedElements(elements) {
        case Some(items) => Some(Arr(items))
        case None => None
      }
    case EmptyObject(_) => Some(Obj([]))
    case Object(fields) =>
      match DenotedFields(fields)
      case Some(members) => Some(Obj(members))
      case None => None
  }

  function DenotedElements(elements: Elements): Option<seq<Json>> {
    var first := Denoted(elements.slot.value);
    if first.None? then None
    else if elements.LastSlot? then Some([first.value])
    else
      match DenotedElements(elements.more)
      case Some(items) => Some([first.value] + items)
      case None => None
  }

  function DenotedFields(fields: Fields): Option<seq<Member>> {
    var first := Denoted(fields.field.value);
    if first.None? then None
    else
      var member := Member(Decoded(fields.field.name), first.value);
      if fields.LastField? then Some([member])
      else
        match DenotedFields(fields.rest)
        case Some(members) => Some([member] + members)
        case None => None
  }

  // ---------------------------------------------------------------- the canonical form

  /** No other way to write this code unit is shorter, and hexadecimal digits are in lower case. */
  ghost predicate Shortest(item: Item) {
    && (forall other: Item | ItemUnit(other) == ItemUnit(item) :: |ItemText(item)| <= |ItemText(other)|)
    && (item.Hex? ==> Lower(item.digits) == item.digits)
  }

  ghost predicate AllShortest(items: seq<Item>) {
    forall i | 0 <= i < |items| :: Shortest(items[i])
  }

  /** No space anywhere, every string in its shortest escapes, and the names of every object strictly increasing. */
  ghost predicate CanonicalTree(v: Value) {
    match v
    case Bare(_) => true
    case Quoted(items) => AllShortest(items)
    case EmptyArray(space) => space == []
    case Array(elements) => CanonicalElements(elements)
    case EmptyObject(space) => space == []
    case Object(fields) => CanonicalFields(fields)
  }

  ghost predicate CanonicalElements(elements: Elements) {
    && elements.slot.before == elements.slot.after == []
    && CanonicalTree(elements.slot.value)
    && (elements.NextSlot? ==> CanonicalElements(elements.more))
  }

  ghost predicate CanonicalFields(fields: Fields) {
    var field := fields.field;
    && field.before == field.gap == field.lead == field.after == []
    && AllShortest(field.name)
    && CanonicalTree(field.value)
    && (fields.NextField? ==>
          Before(Decoded(field.name), Decoded(fields.rest.field.name)) && CanonicalFields(fields.rest))
  }

  lemma ShortestOf(s: Text)
    ensures AllShortest(ItemsOf(s)) && Decoded(ItemsOf(s)) == s
  {
    ItemsDecode(s);
    hide Decoded, ItemText, ItemUnit;
    forall i | 0 <= i < |s| ensures Shortest(ItemsOf(s)[i]) {
      forall other: Item | ItemUnit(other) == ItemUnit(ItemOf(s[i]))
        ensures |ItemText(ItemOf(s[i]))| <= |ItemText(other)|
      {
        ShortestEscape(s[i], other);
      }
      ShortestEscape(s[i], ItemOf(s[i]));
    }
  }

  lemma {:induction false} ElementsCanonical(values: seq<Value>)
    requires |values| > 0 && forall i | 0 <= i < |values| :: CanonicalTree(values[i])
    ensures CanonicalElements(ElementsOf(values))
  {
    hide CanonicalTree;
    if |values| > 1 {
      ElementsCanonical(values[1..]);
    }
  }

  lemma {:induction false} FieldsCanonical(entries: seq<Entry<Value>>)
    requires |entries| > 0 && Increasing(entries) && forall i | 0 <= i < |entries| :: CanonicalTree(entries[i].value)
    ensures CanonicalFields(FieldsOf(entries))
  {
    hide CanonicalTree, Before, Decoded, ItemsOf, AllShortest;
    ShortestOf(entries[0].name);
    if |entries| > 1 {
      ShortestOf(entries[1].name);
      FieldsCanonical(entries[1..]);
    }
  }

  /** The member an entry of the sorted object was printed for. */
  lemma MemberBehind(members: seq<Member>, k: nat) returns (i: nat)
    requires Canonicalizable(Obj(members)) && k < |members|
    ensures i < |members| && Canonicalizable(members[i].value)
    ensures SortedTrees(members)[k] == Entry(members[i].name, Tree(members[i].value))
  {
    hide MemberTrees, Tree, SortByName;
    var entries, sorted := MemberTrees(members), SortedTrees(members);
    SortHolds(entries, sorted[k]);
    i :| 0 <= i < |entries| && entries[i] == sorted[k];
    EntryAt(members, i);
  }

  /** Where a member went when the object was sorted. */
  lemma MemberAhead(members: seq<Member>, i: nat) returns (k: nat)
    requires Canonicalizable(Obj(members)) && i < |members|
    ensures k < |members| && SortedTrees(members)[k].name == members[i].name
  {
    hide MemberTrees, Tree, SortByName;
    var entries, sorted := MemberTrees(members), SortedTrees(members);
    EntryAt(members, i);
    SortHolds(entries, entries[i]);
    k :| 0 <= k < |sorted| && sorted[k] == entries[i];
  }

  lemma {:induction false} TreeIsCanonical(j: Json)
    requires Canonicalizable(j) && Distinct(j)
    ensures CanonicalTree(Tree(j))
    decreases j, 1
  {
    match j
    case Str(s) => ShortestOf(s);
    case Arr(items) => {
      forall i | 0 <= i < |items| ensures CanonicalTree(Tree(items[i])) {
        TreeIsCanonical(items[i]);
      }
      if items != [] {
        ElementsCanonical(Trees(items));
      }
    }
    case Obj(members) => ObjectIsCanonical(members);
    case _ => {
    }
  }

  lemma {:induction false} ObjectIsCanonical(members: seq<Member>)
    requires Canonicalizable(Obj(members)) && Distinct(Obj(members))
    ensures CanonicalTree(Tree(Obj(members)))
    decreases members, 0
  {
    hide SortedTrees, Increasing, NoRepeats, Distinct, Printable;
    if members != [] {
      var sorted := SortedTrees(members);
      DistinctEntries(members);
      SortedIncreasing(members);
      forall k | 0 <= k < |sorted| ensures CanonicalTree(sorted[k].value) {
        var i := MemberBehind(members, k);
        DistinctMember(members, i);
        TreeIsCanonical(members[i].value);
      }
      FieldsCanonical(sorted);
    }
  }

  lemma SortedIncreasing(members: seq<Member>)
    requires Canonicalizable(Obj(members)) && Distinct(Obj(members))
    ensures Increasing(SortedTrees(members))
  {
    hide MemberTrees, Increasing, NoRepeats, Distinct;
    DistinctEntries(members);
    SortIncreasing(MemberTrees(members));
  }

  // ---------------------------------------------------------------- what is printed denotes what was given

  lemma {:induction false} ElementsDenote(values: seq<Value>, items: seq<Json>)
    requires |values| == |items| > 0 && forall i | 0 <= i < |items| :: Denoted(values[i]) == Some(items[i])
    ensures DenotedElements(ElementsOf(values)) == Some(items)
  {
    if |values| == 1 {
      assert items == [items[0]];
    } else {
      ElementsDenote(values[1..], items[1..]);
      assert items == [items[0]] + items[1..];
    }
  }

  /** What an entry denotes, when its value denotes something. */
  predicate EntryDenotes(e: Entry<Value>, m: Member) {
    e.name == m.name && Denoted(e.value) == Some(m.value)
  }

  lemma {:induction false} FieldsDenote(entries: seq<Entry<Value>>, members: seq<Member>)
    requires |entries| == |members| > 0
    requires forall i | 0 <= i < |members| :: EntryDenotes(entries[i], members[i])
    ensures DenotedFields(FieldsOf(entries)) == Some(members)
  {
    hide Decoded, ItemsOf;
    assert EntryDenotes(entries[0], members[0]);
    ItemsDecode(entries[0].name);
    if |entries| == 1 {
      assert members == [members[0]];
    } else {
      FieldsDenote(entries[1..], members[1..]);
      assert members == [members[0]] + members[1..];
    }
  }

  function Said(v: Value): Json {
    match Denoted(v)
    case Some(j) => j
    case None => Null
  }

  function AllSaid(values: seq<Value>): (items: seq<Json>)
    ensures |items| == |values|
  {
    seq(|values|, i requires 0 <= i < |values| => Said(values[i]))
  }

  function MembersSaid(entries: seq<Entry<Value>>): (members: seq<Member>)
    ensures |members| == |entries|
  {
    seq(|entries|, i requires 0 <= i < |entries| => Member(entries[i].name, Said(entries[i].value)))
  }

  /** The tree says this value, up to the order of members and the sign of zero. */
  predicate Says(v: Value, j: Json) {
    Denoted(v).Some? && Equivalent(Denoted(v).value, j)
  }

  lemma {:induction false} TreeSays(j: Json)
    requires Canonicalizable(j) && Distinct(j)
    ensures Says(Tree(j), j)
    decreases j, 1
  {
    match j
    case Bool(_) => LiteralsApart();
    case Num(n) => NumberIsNoLiteral(PrintedNumber(n));
    case Str(s) => ItemsDecode(s);
    case Arr(items) => ArraySays(items);
    case Obj(members) => ObjectSays(members);
    case Null => {
    }
  }

  lemma LiteralsApart()
    ensures Lit("null") != Lit("true") && Lit("null") != Lit("false") && Lit("true") != Lit("false")
  {
    assert Lit("null")[0] == 0x6E && Lit("true")[0] == 0x74 && Lit("false")[0] == 0x66;
  }

  lemma NumberIsNoLiteral(t: Text)
    requires IsNumberText(t)
    ensures t != Lit("null") && t != Lit("true") && t != Lit("false")
  {
    assert Lit("null")[0] == 0x6E && Lit("true")[0] == 0x74 && Lit("false")[0] == 0x66;
  }

  lemma {:induction false} ArraySays(items: seq<Json>)
    requires Canonicalizable(Arr(items)) && Distinct(Arr(items))
    ensures Says(Tree(Arr(items)), Arr(items))
    decreases items, 0
  {
    if items != [] {
      var values := Trees(items);
      forall i | 0 <= i < |items| ensures Says(values[i], items[i]) {
        TreeSays(items[i]);
      }
      hide Tree, Equivalent;
      ElementsDenote(values, AllSaid(values));
      assert Denoted(Array(ElementsOf(values))) == Some(Arr(AllSaid(values)));
      ArrayEquivalent(values, items);
      ArrayTree(items);
    }
  }

  lemma ArrayTree(items: seq<Json>)
    requires Canonicalizable(Arr(items)) && items != []
    ensures Tree(Arr(items)) == Array(ElementsOf(Trees(items)))
  {
  }

  lemma ArrayEquivalent(values: seq<Value>, items: seq<Json>)
    requires |values| == |items| && forall i | 0 <= i < |items| :: Says(values[i], items[i])
    ensures Equivalent(Arr(AllSaid(values)), Arr(items))
  {
    hide Denoted;
    forall i | 0 <= i < |items| ensures Equivalent(AllSaid(values)[i], items[i]) {
      assert Says(values[i], items[i]);
    }
  }

  lemma {:induction false} ObjectSays(members: seq<Member>)
    requires Canonicalizable(Obj(members)) && Distinct(Obj(members))
    ensures Says(Tree(Obj(members)), Obj(members))
    decreases members, 0
  {
    hide SortedTrees, Distinct, Printable, Equivalent;
    if members == [] {
      EquivalentItself(Obj([]));
    } else {
      var sorted := SortedTrees(members);
      var said := MembersSaid(sorted);
      forall k | 0 <= k < |sorted| ensures EntryDenotes(sorted[k], said[k]) {
        var i := MemberBehind(members, k);
        DistinctMember(members, i);
        TreeSays(members[i].value);
      }
      FieldsDenote(sorted, said);
      forall k | 0 <= k < |said|
        ensures Find(members, said[k].name).Some? && Equivalent(said[k].value, Find(members, said[k].name).value)
      {
        var i := MemberBehind(members, k);
        DistinctMember(members, i);
        TreeSays(members[i].value);
        FindAt(members, i);
      }
      forall i | 0 <= i < |members| ensures Find(said, members[i].name).Some? {
        var k := MemberAhead(members, i);
        FoundSomewhere(said, k);
      }
      ObjectsEquivalent(said, members);
    }
  }

  lemma ObjectsEquivalent(s: seq<Member>, t: seq<Member>)
    requires forall i | 0 <= i < |s| ::
      Find(t, s[i].name).Some? && Equivalent(s[i].value, Find(t, s[i].name).value)
    requires forall k | 0 <= k < |t| :: Find(s, t[k].name).Some?
    ensures Equivalent(Obj(s), Obj(t))
  {
  }

  lemma {:induction false} FoundSomewhere(members: seq<Member>, k: nat)
    requires k < |members|
    ensures Find(members, members[k].name).Some?
  {
    if k > 0 {
      FoundSomewhere(members[1..], k - 1);
    }
  }

  /** Canonicalization is sound: the scanner admits the canonical text as a tree in the canonical form, and what that
      tree says is the value that was given. */
  lemma CanonicalTextSaysTheValue(j: Json, limit: nat)
    requires Distinct(j) && Canonicalize(j).Some? && Nesting(j) <= limit
    ensures
      var r := ScanText(Canonicalize(j).value, limit);
      r.Scanned? && CanonicalTree(r.value) && Says(r.value, j)
  {
    hide Canonicalize, ScanText, Tree, Says, CanonicalTree, Nesting, Distinct, Canonicalizable;
    CanonicalScansBack(j, limit);
    TreeIsCanonical(j);
    TreeSays(j);
  }
}
