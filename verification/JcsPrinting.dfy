/** The canonical text is the text of the tree: what the printer writes is in the scanner's grammar, its
    objects sorted and unambiguous, nested exactly as deep as the value. */
module JcsPrinting {
  import opened Wrappers
  import opened CodeUnits
  import opened Json
  import opened Grammar
  import opened JcsStrings
  import opened Jcs

  // ---------------------------------------------------------------- texts of trees

  function Texts(values: seq<Value>): (texts: seq<Text>)
    ensures |texts| == |values|
  {
    seq(|values|, i requires 0 <= i < |values| => ValueText(values[i]))
  }

  function EntryTexts(entries: seq<Entry<Value>>): (texts: seq<Entry<Text>>)
    ensures |texts| == |entries|
  {
    seq(|entries|, i requires 0 <= i < |entries| => Entry(entries[i].name, ValueText(entries[i].value)))
  }

  lemma {:induction false} ElementsJoin(values: seq<Value>)
    requires |values| > 0
    ensures ElementsText(ElementsOf(values)) == Join(Texts(values)) + [RIGHT_BRACKET]
  {
    hide ValueText;
    var text := ValueText(values[0]);
    var slot := Slot([], values[0], []);
    assert SlotText(slot) == text;
    if |values| > 1 {
      ElementsJoin(values[1..]);
      assert Texts(values)[1..] == Texts(values[1..]);
      var rest := Join(Texts(values[1..]));
      assert Join(Texts(values)) == text + [COMMA] + rest;
      assert text + [COMMA] + rest + [RIGHT_BRACKET] == text + [COMMA] + (rest + [RIGHT_BRACKET]);
    }
  }

  lemma FieldOfText(e: Entry<Value>)
    ensures FieldText(FieldOf(e)) == PrintedMember(Entry(e.name, ValueText(e.value)))
  {
    hide ValueText, QuotedText, ItemsOf;
    assert [] + PrintedString(e.name) + [] + [COLON] + [] + ValueText(e.value) + []
      == PrintedString(e.name) + [COLON] + ValueText(e.value);
  }

  lemma {:induction false} FieldsJoin(entries: seq<Entry<Value>>)
    requires |entries| > 0
    ensures FieldsText(FieldsOf(entries)) == Join(PrintedMembers(EntryTexts(entries))) + [RIGHT_BRACE]
  {
    hide ValueText, FieldText, PrintedMember, FieldOf;
    var field := FieldOf(entries[0]);
    var texts := PrintedMembers(EntryTexts(entries));
    FieldOfText(entries[0]);
    assert texts[0] == FieldText(field);
    if |entries| > 1 {
      FieldsJoin(entries[1..]);
      assert texts[1..] == PrintedMembers(EntryTexts(entries[1..]));
      var rest := Join(texts[1..]);
      assert FieldText(field) + [COMMA] + rest + [RIGHT_BRACE] == FieldText(field) + [COMMA] + (rest + [RIGHT_BRACE]);
    }
  }

  lemma {:induction false} InsertTexts(e: Entry<Value>, sorted: seq<Entry<Value>>)
    ensures EntryTexts(Insert(e, sorted)) == Insert(Entry(e.name, ValueText(e.value)), EntryTexts(sorted))
    decreases sorted
  {
    hide ValueText, Before;
    if sorted != [] && Before(sorted[0].name, e.name) {
      InsertTexts(e, sorted[1..]);
      assert EntryTexts(sorted)[1..] == EntryTexts(sorted[1..]);
    }
  }

  /** Sorting looks only at names: the texts sort as the trees do. */
  lemma {:induction false} SortTexts(entries: seq<Entry<Value>>)
    ensures EntryTexts(SortByName(entries)) == SortByName(EntryTexts(entries))
    decreases entries
  {
    hide ValueText, Before;
    if entries != [] {
      SortTexts(entries[1..]);
      InsertTexts(entries[0], SortByName(entries[1..]));
      assert EntryTexts(entries)[1..] == EntryTexts(entries[1..]);
    }
  }

  lemma {:induction false} ItemsAreTrees(items: seq<Json>)
    ensures CanonicalItems(items) ==
      if forall i | 0 <= i < |items| :: Canonicalizable(items[i]) then Some(Texts(Trees(items))) else None
    decreases items
  {
    hide Tree, Canonicalize, ValueText, Canonicalizable;
    if items != [] {
      CanonicalIsTree(items[0]);
      ItemsAreTrees(items[1..]);
      forall i | 0 <= i < |items| - 1 ensures items[1..][i] == items[i + 1] {
      }
      if forall i | 0 <= i < |items| :: Canonicalizable(items[i]) {
        assert Texts(Trees(items)) == [ValueText(Tree(items[0]))] + Texts(Trees(items[1..]));
      } else if Canonicalizable(items[0]) {
        var i :| 0 <= i < |items| && !Canonicalizable(items[i]);
        assert !Canonicalizable(items[1..][i - 1]);
      }
    }
  }

  lemma {:induction false} MembersAreTrees(members: seq<Member>)
    ensures CanonicalMembers(members) ==
      if forall i | 0 <= i < |members| :: Printable(members[i]) then Some(EntryTexts(MemberTrees(members))) else None
    decreases members
  {
    hide Tree, Canonicalize, ValueText, Canonicalizable, WellFormed;
    if members != [] {
      CanonicalIsTree(members[0].value);
      MembersAreTrees(members[1..]);
      forall i | 0 <= i < |members| - 1 ensures members[1..][i] == members[i + 1] {
      }
      if forall i | 0 <= i < |members| :: Printable(members[i]) {
        assert EntryTexts(MemberTrees(members)) ==
          [Entry(members[0].name, ValueText(Tree(members[0].value)))] + EntryTexts(MemberTrees(members[1..]));
      } else if Printable(members[0]) {
        var i :| 0 <= i < |members| && !Printable(members[i]);
        assert !Printable(members[1..][i - 1]);
      }
    }
  }

  /** The printer fails exactly where a number is not finite or a string or name is not well formed, and
      otherwise prints the tree. */
  lemma {:induction false} CanonicalIsTree(j: Json)
    ensures Canonicalize(j) == if Canonicalizable(j) then Some(ValueText(Tree(j))) else None
    decreases j
  {
    match j
    case Arr(items) => {
      ItemsAreTrees(items);
      if Canonicalizable(j) {
        ArrayPrinted(items);
      }
    }
    case Obj(members) => {
      MembersAreTrees(members);
      if Canonicalizable(j) {
        ObjectPrinted(members);
      }
    }
    case _ => {
    }
  }

  lemma ArrayPrinted(items: seq<Json>)
    requires Canonicalizable(Arr(items))
    ensures ValueText(Tree(Arr(items))) == [LEFT_BRACKET] + Join(Texts(Trees(items))) + [RIGHT_BRACKET]
  {
    hide ElementsText, ElementsOf, Texts, Trees;
    if items != [] {
      ElementsJoin(Trees(items));
      assert [LEFT_BRACKET] + (Join(Texts(Trees(items))) + [RIGHT_BRACKET])
        == [LEFT_BRACKET] + Join(Texts(Trees(items))) + [RIGHT_BRACKET];
    }
  }

  lemma ObjectPrinted(members: seq<Member>)
    requires Canonicalizable(Obj(members))
    ensures ValueText(Tree(Obj(members))) ==
      [LEFT_BRACE] + Join(PrintedMembers(SortByName(EntryTexts(MemberTrees(members))))) + [RIGHT_BRACE]
  {
    hide FieldsText, PrintedMember, MemberTrees, Before;
    SortTexts(MemberTrees(members));
    if members != [] {
      FieldsJoin(SortedTrees(members));
    }
  }

  // ---------------------------------------------------------------- sorted members

  predicate Increasing<T>(entries: seq<Entry<T>>) {
    forall i, k | 0 <= i < k < |entries| :: Before(entries[i].name, entries[k].name)
  }

  predicate NoRepeats<T>(entries: seq<Entry<T>>) {
    forall i, k | 0 <= i < k < |entries| :: entries[i].name != entries[k].name
  }

  lemma {:induction false} InsertIncreasing<T>(e: Entry<T>, sorted: seq<Entry<T>>)
    requires Increasing(sorted) && forall i | 0 <= i < |sorted| :: sorted[i].name != e.name
    ensures Increasing(Insert(e, sorted))
    decreases sorted
  {
    hide Before;
    if sorted != [] {
      BeforeTrichotomy(sorted[0].name, e.name);
      if Before(sorted[0].name, e.name) {
        InsertIncreasing(e, sorted[1..]);
        var rest := Insert(e, sorted[1..]);
        InsertKeeps(e, sorted[1..]);
        forall k | 0 <= k < |rest| ensures Before(sorted[0].name, rest[k].name) {
          assert rest[k] in multiset(rest);
          assert rest[k] == e || rest[k] in sorted[1..];
        }
      } else {
        forall k | 1 <= k < |sorted| ensures Before(e.name, sorted[k].name) {
          BeforeTransitive(e.name, sorted[0].name, sorted[k].name);
        }
      }
    }
  }

  lemma {:induction false} SortIncreasing<T>(entries: seq<Entry<T>>)
    requires NoRepeats(entries)
    ensures Increasing(SortByName(entries))
    decreases entries
  {
    hide Before, Insert;
    if entries != [] {
      var rest := SortByName(entries[1..]);
      SortIncreasing(entries[1..]);
      SortKeeps(entries[1..]);
      forall k | 0 <= k < |rest| ensures rest[k].name != entries[0].name {
        assert rest[k] in multiset(rest);
        assert rest[k] in entries[1..];
      }
      InsertIncreasing(entries[0], rest);
    }
  }

  lemma SortHolds<T>(entries: seq<Entry<T>>, e: Entry<T>)
    ensures e in SortByName(entries) <==> e in entries
  {
    SortKeeps(entries);
    assert e in multiset(SortByName(entries)) <==> e in multiset(entries);
  }

  lemma FirstIsLeast<T>(a: seq<Entry<T>>, e: Entry<T>)
    requires Increasing(a) && e in a
    ensures e == a[0] || Before(a[0].name, e.name)
  {
    hide Before;
  }

  /** There is one increasing sequence of given entries. */
  lemma {:induction false} OneOrder<T>(a: seq<Entry<T>>, b: seq<Entry<T>>)
    requires Increasing(a) && Increasing(b) && (forall e :: e in a <==> e in b)
    ensures a == b
    decreases |a|
  {
    hide Before;
    assert b != [] ==> b[0] in a;
    if a != [] {
      assert a[0] in b;
      FirstIsLeast(a, b[0]);
      FirstIsLeast(b, a[0]);
      BeforeTrichotomy(a[0].name, b[0].name);
      forall e ensures e in a[1..] <==> e in b[1..] {
        RestHolds(a, e);
        RestHolds(b, e);
      }
      OneOrder(a[1..], b[1..]);
      assert a == [a[0]] + a[1..] && b == [b[0]] + b[1..];
    }
  }

  lemma RestHolds<T>(a: seq<Entry<T>>, e: Entry<T>)
    requires Increasing(a) && a != []
    ensures e in a[1..] <==> e in a && e != a[0]
  {
    BeforeTrichotomy(a[0].name, a[0].name);
    assert a == [a[0]] + a[1..];
    if e in a[1..] {
      var i :| 0 <= i < |a[1..]| && a[1..][i] == e;
      assert Before(a[0].name, a[i + 1].name);
    }
  }

  // ---------------------------------------------------------------- depth and ambiguity

  lemma {:induction false} TreeDepth(j: Json)
    requires Canonicalizable(j)
    ensures Depth(Tree(j)) == Nesting(j)
    decreases j
  {
    match j
    case Arr(items) => {
      if items != [] {
        ElementsOfDepth(items);
      }
    }
    case Obj(members) => {
      MembersDepth(members);
      if members != [] {
        FieldsOfDepth(SortedTrees(members));
        SortDepth(MemberTrees(members));
      }
    }
    case _ => {
    }
  }

  lemma {:induction false} ElementsOfDepth(items: seq<Json>)
    requires |items| > 0 && forall i | 0 <= i < |items| :: Canonicalizable(items[i])
    ensures ElementsDepth(ElementsOf(Trees(items))) == ItemsNesting(items)
    decreases items
  {
    hide Tree, Depth, Nesting, Canonicalizable;
    TreeDepth(items[0]);
    if |items| > 1 {
      ElementsOfDepth(items[1..]);
      assert Trees(items)[1..] == Trees(items[1..]);
    } else {
      assert ItemsNesting(items[1..]) == 0;
    }
  }

  function EntriesDepth(entries: seq<Entry<Value>>): nat {
    if entries == [] then 0 else Max(Depth(entries[0].value), EntriesDepth(entries[1..]))
  }

  lemma {:induction false} FieldsOfDepth(entries: seq<Entry<Value>>)
    requires |entries| > 0
    ensures FieldsDepth(FieldsOf(entries)) == EntriesDepth(entries)
  {
    hide Depth;
    if |entries| > 1 {
      FieldsOfDepth(entries[1..]);
    } else {
      assert EntriesDepth(entries[1..]) == 0;
    }
  }

  lemma {:induction false} InsertDepth(e: Entry<Value>, sorted: seq<Entry<Value>>)
    ensures EntriesDepth(Insert(e, sorted)) == Max(Depth(e.value), EntriesDepth(sorted))
    decreases sorted
  {
    hide Depth, Before;
    if sorted != [] && Before(sorted[0].name, e.name) {
      InsertDepth(e, sorted[1..]);
      assert Insert(e, sorted)[1..] == Insert(e, sorted[1..]);
    } else {
      assert Insert(e, sorted)[1..] == sorted;
    }
  }

  lemma {:induction false} SortDepth(entries: seq<Entry<Value>>)
    ensures EntriesDepth(SortByName(entries)) == EntriesDepth(entries)
    decreases entries
  {
    hide Depth, Before, Insert;
    if entries != [] {
      SortDepth(entries[1..]);
      InsertDepth(entries[0], SortByName(entries[1..]));
    }
  }

  lemma {:induction false} MembersDepth(members: seq<Member>)
    requires forall i | 0 <= i < |members| :: Printable(members[i])
    ensures EntriesDepth(MemberTrees(members)) == MembersNesting(members)
    decreases members
  {
    hide Tree, Depth, Nesting, Canonicalizable, WellFormed;
    if members != [] {
      TreeDepth(members[0].value);
      MembersDepth(members[1..]);
      assert MemberTrees(members)[1..] == MemberTrees(members[1..]);
    }
  }

  /** The decoded names of an object's fields, in order. */
  function FieldNames(fields: Fields): seq<Text> {
    match fields
    case LastField(field) => [Decoded(field.name)]
    case NextField(field, rest) => [Decoded(field.name)] + FieldNames(rest)
  }

  lemma {:induction false} FieldNamesOf(entries: seq<Entry<Value>>)
    requires |entries| > 0
    ensures |FieldNames(FieldsOf(entries))| == |entries|
    ensures forall i | 0 <= i < |entries| :: FieldNames(FieldsOf(entries))[i] == entries[i].name
  {
    hide Decoded, ItemsOf;
    ItemsDecode(entries[0].name);
    if |entries| > 1 {
      FieldNamesOf(entries[1..]);
    }
  }

  lemma {:induction false} NamesInOrder(fields: Fields, name: Text)
    ensures name in Names(fields) <==> name in FieldNames(fields)
  {
    hide Decoded;
    match fields
    case LastField(_) => {
    }
    case NextField(_, rest) => NamesInOrder(rest, name);
  }

  lemma {:induction false} TreeUnambiguous(j: Json)
    requires Canonicalizable(j) && Distinct(j)
    ensures Unambiguous(Tree(j))
    decreases j
  {
    match j
    case Arr(items) => {
      if items != [] {
        var values := Trees(items);
        forall i | 0 <= i < |items| ensures Unambiguous(values[i]) {
          TreeUnambiguous(items[i]);
        }
        ElementsOfUnambiguous(values);
      }
    }
    case Obj(members) => {
      if members != [] {
        var entries := MemberTrees(members);
        forall i | 0 <= i < |entries|
          ensures entries[i].name == members[i].name && Unambiguous(entries[i].value)
        {
          TreeUnambiguous(members[i].value);
          assert entries[i] == MemberTree(members[i]) == Entry(members[i].name, Tree(members[i].value));
        }
        SortedUnambiguous(entries);
      }
    }
    case _ => {
    }
  }

  lemma SortedUnambiguous(entries: seq<Entry<Value>>)
    requires |entries| > 0 && NoRepeats(entries) && forall i | 0 <= i < |entries| :: Unambiguous(entries[i].value)
    ensures |SortByName(entries)| > 0 && FieldsUnambiguous(FieldsOf(SortByName(entries)))
  {
    hide Unambiguous, SortByName, FieldsUnambiguous;
    var sorted := SortByName(entries);
    SortKeeps(entries);
    SortIncreasing(entries);
    forall i | 0 <= i < |sorted| ensures Unambiguous(sorted[i].value) {
      SortHolds(entries, sorted[i]);
    }
    FieldsOfUnambiguous(sorted);
  }

  lemma {:induction false} ElementsOfUnambiguous(values: seq<Value>)
    requires |values| > 0 && forall i | 0 <= i < |values| :: Unambiguous(values[i])
    ensures ElementsUnambiguous(ElementsOf(values))
  {
    hide Unambiguous;
    if |values| > 1 {
      ElementsOfUnambiguous(values[1..]);
    }
  }

  lemma {:induction false} FieldsOfUnambiguous(entries: seq<Entry<Value>>)
    requires |entries| > 0 && Increasing(entries) && forall i | 0 <= i < |entries| :: Unambiguous(entries[i].value)
    ensures FieldsUnambiguous(FieldsOf(entries))
  {
    hide Unambiguous, Before, Decoded, ItemsOf;
    if |entries| > 1 {
      var name := entries[0].name;
      FieldsOfUnambiguous(entries[1..]);
      ItemsDecode(name);
      NamesInOrder(FieldsOf(entries[1..]), name);
      FieldNamesOf(entries[1..]);
      BeforeTrichotomy(name, name);
    }
  }
}
