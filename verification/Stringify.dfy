/** `JSON.stringify(value, null, 2)` and a final newline, as the sidecar documents are written: the text is in
    the scanner's grammar, unambiguous, no deeper than the value, and says just that value. */
module Stringify {
  import opened Wrappers
  import opened CodeUnits
  import opened Json
  import opened Grammar
  import opened Scanning
  import opened ScanCompleteness
  import opened JcsStrings
  import opened Jcs
  import opened JcsPrinting
  import opened Denotation

  const NEWLINE: CodeUnit := 0x0A

  /** A line break and the indentation of level `d`. */
  function Break(d: nat): (space: Space)
  {
    [NEWLINE] + seq(2 * d, _ => 0x20)
  }

  /** Values stringified in place: their numbers print as themselves. */
  predicate Plain(j: Json) {
    match j
    case Num(n) => n.Finite?
    case Str(s) => WellFormed(s)
    case Arr(items) => forall i | 0 <= i < |items| :: Plain(items[i])
    case Obj(members) => forall i | 0 <= i < |members| :: PlainMember(members[i])
    case _ => true
  }

  predicate PlainMember(m: Member) {
    WellFormed(m.name) && Plain(m.value)
  }

  lemma {:induction false} PlainIsCanonicalizable(j: Json)
    requires Plain(j)
    ensures Canonicalizable(j)
    decreases j
  {
    match j
    case Arr(items) => {
      forall i | 0 <= i < |items| ensures Canonicalizable(items[i]) {
        PlainIsCanonicalizable(items[i]);
      }
    }
    case Obj(members) => {
      forall i | 0 <= i < |members| ensures Printable(members[i]) {
        assert PlainMember(members[i]);
        PlainIsCanonicalizable(members[i].value);
      }
    }
    case _ => {
    }
  }

  /** The tree written at indentation `d`. */
  function Pretty(j: Json, d: nat): Value
    requires Plain(j)
  {
    match j
    case Null => LiteralsAreBare(); Bare(Lit("null"))
    case Bool(value) => LiteralsAreBare(); Bare(if value then Lit("true") else Lit("false"))
    case Num(n) => Bare(TokenOf(n.token))
    case Str(s) => Quoted(ItemsOf(s))
    case Arr(items) => if items == [] then EmptyArray([]) else Array(Slots(PrettyItems(items, d + 1), d))
    case Obj(members) => if members == [] then EmptyObject([]) else Object(Lines(PrettyMembers(members, d + 1), d))
  }

  function PrettyItems(items: seq<Json>, d: nat): (values: seq<Value>)
    requires forall i | 0 <= i < |items| :: Plain(items[i])
    ensures |values| == |items|
  {
    seq(|items|, i requires 0 <= i < |items| => Pretty(items[i], d))
  }

  function PrettyMember(m: Member, d: nat): Entry<Value>
    requires PlainMember(m)
    decreases m
  {
    Entry(m.name, Pretty(m.value, d))
  }

  function PrettyMembers(members: seq<Member>, d: nat): (entries: seq<Entry<Value>>)
    requires forall i | 0 <= i < |members| :: PlainMember(members[i])
    ensures |entries| == |members|
  {
    seq(|members|, i requires 0 <= i < |members| => PrettyMember(members[i], d))
  }

  /** One element a line, one level in, and the bracket back out. */
  function Slots(values: seq<Value>, d: nat): Elements
    requires |values| > 0
  {
    if |values| == 1 then LastSlot(Slot(Break(d + 1), values[0], Break(d)))
    else NextSlot(Slot(Break(d + 1), values[0], []), Slots(values[1..], d))
  }

  const ONE_SPACE: Space := [0x20]

  function Lines(entries: seq<Entry<Value>>, d: nat): Fields
    requires |entries| > 0
  {
    var e := entries[0];
    if |entries| == 1 then LastField(Field(Break(d + 1), ItemsOf(e.name), [], ONE_SPACE, e.value, Break(d)))
    else NextField(Field(Break(d + 1), ItemsOf(e.name), [], ONE_SPACE, e.value, []), Lines(entries[1..], d))
  }

  // ---------------------------------------------------------------- depth and ambiguity

  lemma {:induction false} SlotsDepth(values: seq<Value>, d: nat, bound: nat)
    requires |values| > 0 && forall i | 0 <= i < |values| :: Depth(values[i]) <= bound
    ensures ElementsDepth(Slots(values, d)) <= bound
  {
    hide Depth;
    if |values| > 1 {
      SlotsDepth(values[1..], d, bound);
    }
  }

  lemma {:induction false} LinesDepth(entries: seq<Entry<Value>>, d: nat, bound: nat)
    requires |entries| > 0 && forall i | 0 <= i < |entries| :: Depth(entries[i].value) <= bound
    ensures FieldsDepth(Lines(entries, d)) <= bound
  {
    hide Depth;
    if |entries| > 1 {
      LinesDepth(entries[1..], d, bound);
    }
  }

  lemma {:induction false} ItemNesting(items: seq<Json>, i: nat)
    requires i < |items|
    ensures Nesting(items[i]) <= ItemsNesting(items)
  {
    hide Nesting;
    if i > 0 {
      ItemNesting(items[1..], i - 1);
    }
  }

  lemma {:induction false} MemberNesting(members: seq<Member>, i: nat)
    requires i < |members|
    ensures Nesting(members[i].value) <= MembersNesting(members)
  {
    hide Nesting;
    if i > 0 {
      MemberNesting(members[1..], i - 1);
    }
  }

  lemma {:induction false} PrettyDepth(j: Json, d: nat)
    requires Plain(j)
    ensures Depth(Pretty(j, d)) <= Nesting(j)
    decreases j
  {
    match j
    case Arr(items) => {
      if items != [] {
        var values := PrettyItems(items, d + 1);
        forall i | 0 <= i < |items| ensures Depth(values[i]) <= ItemsNesting(items) {
          PrettyDepth(items[i], d + 1);
          ItemNesting(items, i);
        }
        SlotsDepth(values, d, ItemsNesting(items));
      }
    }
    case Obj(members) => {
      if members != [] {
        var entries := PrettyMembers(members, d + 1);
        forall i | 0 <= i < |members| ensures Depth(entries[i].value) <= MembersNesting(members) {
          assert PlainMember(members[i]) && entries[i] == PrettyMember(members[i], d + 1);
          PrettyDepth(members[i].value, d + 1);
          MemberNesting(members, i);
        }
        LinesDepth(entries, d, MembersNesting(members));
      }
    }
    case _ => {
    }
  }

  lemma {:induction false} SlotsUnambiguous(values: seq<Value>, d: nat)
    requires |values| > 0 && forall i | 0 <= i < |values| :: Unambiguous(values[i])
    ensures ElementsUnambiguous(Slots(values, d))
  {
    hide Unambiguous;
    if |values| > 1 {
      SlotsUnambiguous(values[1..], d);
    }
  }

  lemma {:induction false} LinesNames(entries: seq<Entry<Value>>, d: nat, name: Text)
    requires |entries| > 0 && forall i | 0 <= i < |entries| :: entries[i].name != name
    ensures name !in Names(Lines(entries, d))
  {
    hide Decoded, ItemsOf;
    ItemsDecode(entries[0].name);
    if |entries| > 1 {
      LinesNames(entries[1..], d, name);
    }
  }

  lemma {:induction false} LinesUnambiguous(entries: seq<Entry<Value>>, d: nat)
    requires |entries| > 0 && NoRepeats(entries) && forall i | 0 <= i < |entries| :: Unambiguous(entries[i].value)
    ensures FieldsUnambiguous(Lines(entries, d))
  {
    hide Unambiguous, Decoded, ItemsOf;
    if |entries| > 1 {
      LinesUnambiguous(entries[1..], d);
      ItemsDecode(entries[0].name);
      LinesNames(entries[1..], d, entries[0].name);
    }
  }

  lemma {:induction false} PrettyUnambiguous(j: Json, d: nat)
    requires Plain(j) && Distinct(j)
    ensures Unambiguous(Pretty(j, d))
    decreases j
  {
    match j
    case Arr(items) => {
      if items != [] {
        var values := PrettyItems(items, d + 1);
        forall i | 0 <= i < |items| ensures Unambiguous(values[i]) {
          PrettyUnambiguous(items[i], d + 1);
        }
        SlotsUnambiguous(values, d);
      }
    }
    case Obj(members) => {
      if members != [] {
        var entries := PrettyMembers(members, d + 1);
        forall i | 0 <= i < |members|
          ensures entries[i].name == members[i].name && Unambiguous(entries[i].value)
        {
          assert PlainMember(members[i]) && entries[i] == PrettyMember(members[i], d + 1);
          PrettyUnambiguous(members[i].value, d + 1);
        }
        LinesUnambiguous(entries, d);
      }
    }
    case _ => {
    }
  }

  // ---------------------------------------------------------------- what a document says

  lemma {:induction false} SlotsDenote(values: seq<Value>, d: nat, items: seq<Json>)
    requires |values| == |items| > 0 && forall i | 0 <= i < |items| :: Denoted(values[i]) == Some(items[i])
    ensures DenotedElements(Slots(values, d)) == Some(items)
  {
    hide Break;
    if |values| == 1 {
      assert items == [items[0]];
    } else {
      SlotsDenote(values[1..], d, items[1..]);
      assert items == [items[0]] + items[1..];
    }
  }

  lemma {:induction false} LinesDenote(entries: seq<Entry<Value>>, d: nat, members: seq<Member>)
    requires |entries| == |members| > 0
    requires forall i | 0 <= i < |members| :: EntryDenotes(entries[i], members[i])
    ensures DenotedFields(Lines(entries, d)) == Some(members)
  {
    hide Decoded, ItemsOf, Break;
    assert EntryDenotes(entries[0], members[0]);
    ItemsDecode(entries[0].name);
    if |entries| == 1 {
      assert members == [members[0]];
    } else {
      LinesDenote(entries[1..], d, members[1..]);
      assert members == [members[0]] + members[1..];
    }
  }

  lemma {:induction false} PrettyDenotes(j: Json, d: nat)
    requires Plain(j)
    ensures Denoted(Pretty(j, d)) == Some(j)
    decreases j
  {
    match j
    case Bool(_) => LiteralsApart();
    case Num(n) => NumberIsNoLiteral(n.token);
    case Str(s) => ItemsDecode(s);
    case Arr(items) => {
      if items != [] {
        var values := PrettyItems(items, d + 1);
        forall i | 0 <= i < |items| ensures Denoted(values[i]) == Some(items[i]) {
          PrettyDenotes(items[i], d + 1);
        }
        SlotsDenote(values, d, items);
      }
    }
    case Obj(members) => {
      if members != [] {
        var entries := PrettyMembers(members, d + 1);
        forall i | 0 <= i < |members| ensures EntryDenotes(entries[i], members[i]) {
          assert PlainMember(members[i]) && entries[i] == PrettyMember(members[i], d + 1);
          PrettyDenotes(members[i].value, d + 1);
        }
        LinesDenote(entries, d, members);
      }
    }
    case Null => {
    }
  }

  /** What a sidecar file holds. */
  function DocumentText(j: Json): Text
    requires Plain(j)
  {
    ValueText(Pretty(j, 0)) + [NEWLINE]
  }

  /** A document no deeper than the limit is always admitted from the file it was written to, and the file says
      exactly the document: the same members in the same order. */
  lemma DocumentsAreAdmitted(j: Json, limit: nat)
    requires Plain(j) && Distinct(j) && Nesting(j) <= limit
    ensures
      var r := ScanText(DocumentText(j), limit);
      r.Scanned? && Denoted(r.value) == Some(j)
  {
    hide Pretty, ValueText, Unambiguous, Depth, ScanText, Denoted;
    PrettyDepth(j, 0);
    PrettyUnambiguous(j, 0);
    PrettyDenotes(j, 0);
    var newline: Space := [NEWLINE];
    assert DocumentText(j) == [] + ValueText(Pretty(j, 0)) + newline;
    ReadsScanned(DocumentText(j), limit, [], Pretty(j, 0), newline);
  }
}
