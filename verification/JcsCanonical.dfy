/** The two promises of the canonical form: equal exactly for equivalent values, and read back by the scanner. */
module JcsCanonical {
  import opened Wrappers
  import opened CodeUnits
  import opened Json
  import opened Grammar
  import opened Scanning
  import opened ScanCompleteness
  import opened JcsStrings
  import opened Jcs
  import opened JcsPrinting

  /** Equal numbers, negative zero being zero. */
  predicate SameNumber(m: Number, n: Number) {
    m == n || (m.NegativeZero? && n == Finite([0x30])) || (n.NegativeZero? && m == Finite([0x30]))
  }

  /** Equal up to the order of members, at any depth, and the sign of zero. */
  predicate Equivalent(a: Json, b: Json) {
    match (a, b)
    case (Num(m), Num(n)) => SameNumber(m, n)
    case (Arr(s), Arr(t)) => |s| == |t| && forall i | 0 <= i < |s| :: Equivalent(s[i], t[i])
    case (Obj(s), Obj(t)) =>
      && (forall i | 0 <= i < |s| :: Find(t, s[i].name).Some? && Equivalent(s[i].value, Find(t, s[i].name).value))
      && (forall k | 0 <= k < |t| :: Find(s, t[k].name).Some?)
    case _ => a == b
  }

  lemma {:induction false} FindIndex(members: seq<Member>, name: Text) returns (i: nat)
    requires Find(members, name).Some?
    ensures i < |members| && members[i].name == name && Find(members, name) == Some(members[i].value)
  {
    if members[0].name == name {
      i := 0;
    } else {
      i := FindIndex(members[1..], name);
      i := i + 1;
    }
  }

  lemma {:induction false} FindAt(members: seq<Member>, i: nat)
    requires Distinct(Obj(members)) && i < |members|
    ensures Find(members, members[i].name) == Some(members[i].value)
    decreases members
  {
    if i > 0 {
      assert members[0].name != members[i].name;
      assert Distinct(Obj(members[1..])) by {
        forall k | 0 <= k < |members| - 1 ensures members[1..][k] == members[k + 1] {
        }
      }
      FindAt(members[1..], i - 1);
    }
  }

  lemma PartnerOf(s: seq<Member>, t: seq<Member>, i: nat) returns (k: nat)
    requires Equivalent(Obj(s), Obj(t)) && i < |s|
    ensures k < |t| && s[i].name == t[k].name && Equivalent(s[i].value, t[k].value)
  {
    k := FindIndex(t, s[i].name);
  }

  lemma PartnerFor(s: seq<Member>, t: seq<Member>, k: nat) returns (i: nat)
    requires Equivalent(Obj(s), Obj(t)) && Distinct(Obj(t)) && k < |t|
    ensures i < |s| && s[i].name == t[k].name && Equivalent(s[i].value, t[k].value)
  {
    hide Distinct;
    i := FindIndex(s, t[k].name);
    FindAt(t, k);
  }

  lemma PrintableMember(members: seq<Member>, i: nat)
    requires Canonicalizable(Obj(members)) && i < |members|
    ensures Printable(members[i]) && WellFormed(members[i].name) && Canonicalizable(members[i].value)
  {
    assert Printable(members[i]);
  }

  /** Equivalent values are printed or refused together. */
  lemma {:induction false} EquivalentPrintable(a: Json, b: Json)
    requires Equivalent(a, b) && Canonicalizable(a) && Distinct(a) && Distinct(b)
    ensures Canonicalizable(b)
    decreases a, 1
  {
    if a.Obj? {
      forall k | 0 <= k < |b.members| ensures Printable(b.members[k]) {
        MemberPrintable(a.members, b.members, k);
      }
    } else if a.Arr? {
      forall i | 0 <= i < |b.items| ensures Canonicalizable(b.items[i]) {
        EquivalentPrintable(a.items[i], b.items[i]);
      }
    }
  }

  lemma {:induction false} MemberPrintable(s: seq<Member>, t: seq<Member>, k: nat)
    requires Equivalent(Obj(s), Obj(t)) && Canonicalizable(Obj(s)) && k < |t|
    requires Distinct(Obj(s)) && Distinct(Obj(t))
    ensures Printable(t[k])
    decreases s, 0
  {
    hide Canonicalizable, WellFormed, Equivalent, Distinct;
    var i := PartnerFor(s, t, k);
    PrintableMember(s, i);
    DistinctMember(s, i);
    DistinctMember(t, k);
    EquivalentPrintable(s[i].value, t[k].value);
  }

  lemma {:induction false} EquivalentTrees(a: Json, b: Json)
    requires Equivalent(a, b) && Canonicalizable(a) && Canonicalizable(b) && Distinct(a) && Distinct(b)
    ensures Tree(a) == Tree(b)
    decreases a, 1
  {
    if a.Obj? {
      var s, t := a.members, b.members;
      hide Equivalent, MemberTrees, MemberTree;
      assert b == Obj(t);
      forall i | 0 <= i < |s| ensures MemberTrees(s)[i] in MemberTrees(t) {
        EntryCarried(s, t, i);
      }
      forall k | 0 <= k < |t| ensures MemberTrees(t)[k] in MemberTrees(s) {
        EntryCarriedBack(s, t, k);
      }
      SameObject(s, t);
    } else if a.Arr? {
      forall i | 0 <= i < |a.items| ensures Tree(a.items[i]) == Tree(b.items[i]) {
        EquivalentTrees(a.items[i], b.items[i]);
      }
      assert Trees(a.items) == Trees(b.items);
    }
  }

  lemma DistinctMember(members: seq<Member>, i: nat)
    requires Distinct(Obj(members)) && i < |members|
    ensures Distinct(members[i].value)
  {
  }

  lemma EntryAt(members: seq<Member>, i: nat)
    requires Canonicalizable(Obj(members)) && i < |members|
    ensures Canonicalizable(members[i].value)
    ensures MemberTrees(members)[i] == Entry(members[i].name, Tree(members[i].value))
  {
    hide Tree;
    PrintableMember(members, i);
    assert MemberTrees(members)[i] == MemberTree(members[i]);
  }

  lemma {:induction false} PairCarried(s: seq<Member>, t: seq<Member>, i: nat, k: nat)
    requires Canonicalizable(Obj(s)) && Canonicalizable(Obj(t)) && Distinct(Obj(s)) && Distinct(Obj(t))
    requires i < |s| && k < |t| && s[i].name == t[k].name && Equivalent(s[i].value, t[k].value)
    ensures MemberTrees(s)[i] == MemberTrees(t)[k]
    decreases s, 0
  {
    hide Canonicalizable, Distinct, MemberTrees, Equivalent, Tree;
    EntryAt(s, i);
    EntryAt(t, k);
    DistinctMember(s, i);
    DistinctMember(t, k);
    EquivalentTrees(s[i].value, t[k].value);
  }

  lemma {:induction false} EntryCarried(s: seq<Member>, t: seq<Member>, i: nat)
    requires Canonicalizable(Obj(s)) && Canonicalizable(Obj(t)) && Distinct(Obj(s)) && Distinct(Obj(t))
    requires Equivalent(Obj(s), Obj(t)) && i < |s|
    ensures MemberTrees(s)[i] in MemberTrees(t)
    decreases s, 1
  {
    hide Distinct, MemberTrees, Equivalent;
    var k := PartnerOf(s, t, i);
    PairCarried(s, t, i, k);
  }

  lemma {:induction false} EntryCarriedBack(s: seq<Member>, t: seq<Member>, k: nat)
    requires Canonicalizable(Obj(s)) && Canonicalizable(Obj(t)) && Distinct(Obj(s)) && Distinct(Obj(t))
    requires Equivalent(Obj(s), Obj(t)) && k < |t|
    ensures MemberTrees(t)[k] in MemberTrees(s)
    decreases s, 1
  {
    hide Distinct, MemberTrees, Equivalent;
    var i := PartnerFor(s, t, k);
    PairCarried(s, t, i, k);
  }

  lemma DistinctEntries(members: seq<Member>)
    requires Canonicalizable(Obj(members)) && Distinct(Obj(members))
    ensures NoRepeats(MemberTrees(members))
  {
    hide Tree, MemberTrees;
    forall i | 0 <= i < |members| ensures MemberTrees(members)[i].name == members[i].name {
      EntryAt(members, i);
    }
  }

  /** Objects with the same printed members, in whatever order, print alike. */
  lemma SameObject(s: seq<Member>, t: seq<Member>)
    requires Canonicalizable(Obj(s)) && Canonicalizable(Obj(t)) && Distinct(Obj(s)) && Distinct(Obj(t))
    requires forall i | 0 <= i < |s| :: MemberTrees(s)[i] in MemberTrees(t)
    requires forall k | 0 <= k < |t| :: MemberTrees(t)[k] in MemberTrees(s)
    ensures Tree(Obj(s)) == Tree(Obj(t))
  {
    hide MemberTrees, Printable, SortByName, FieldsOf, Distinct, NoRepeats;
    var x, y := MemberTrees(s), MemberTrees(t);
    DistinctEntries(s);
    DistinctEntries(t);
    assert forall e :: e in x ==> e in y;
    assert forall e :: e in y ==> e in x;
    assert |x| > 0 ==> x[0] in y;
    assert |y| > 0 ==> y[0] in x;
    SameEntriesSameOrder(x, y);
  }

  lemma SameEntriesSameOrder<T>(x: seq<Entry<T>>, y: seq<Entry<T>>)
    requires NoRepeats(x) && NoRepeats(y) && forall e :: e in x <==> e in y
    ensures SortByName(x) == SortByName(y)
  {
    hide SortByName, NoRepeats, Increasing;
    SortIncreasing(x);
    SortIncreasing(y);
    forall e ensures e in SortByName(x) <==> e in SortByName(y) {
      SortHolds(x, e);
      SortHolds(y, e);
    }
    OneOrder(SortByName(x), SortByName(y));
  }

  // ---------------------------------------------------------------- back from the tree

  lemma {:induction false} SameElements(x: seq<Value>, y: seq<Value>)
    requires |x| > 0 && |y| > 0 && ElementsOf(x) == ElementsOf(y)
    ensures x == y
  {
    assert x[0] == ElementsOf(x).slot.value == y[0];
    if |x| > 1 {
      SameElements(x[1..], y[1..]);
    }
    assert x == [x[0]] + x[1..] && y == [y[0]] + y[1..];
  }

  lemma {:induction false} SameFields(x: seq<Entry<Value>>, y: seq<Entry<Value>>)
    requires |x| > 0 && |y| > 0 && FieldsOf(x) == FieldsOf(y)
    ensures x == y
  {
    hide ItemsOf;
    assert FieldOf(x[0]) == FieldsOf(x).field == FieldOf(y[0]);
    ItemsDecode(x[0].name);
    ItemsDecode(y[0].name);
    if |x| > 1 {
      SameFields(x[1..], y[1..]);
    }
    assert x == [x[0]] + x[1..] && y == [y[0]] + y[1..];
  }

  lemma {:induction false} TreesEquivalent(a: Json, b: Json)
    requires Canonicalizable(a) && Canonicalizable(b) && Distinct(a) && Distinct(b) && Tree(a) == Tree(b)
    ensures Equivalent(a, b)
    decreases a, 3
  {
    if a.Obj? {
      assert b.Obj?;
      if a.members != [] {
        SameFields(SortedTrees(a.members), SortedTrees(b.members));
        MembersEquivalent(a.members, b.members);
      }
    } else if a.Arr? {
      assert b.Arr?;
      if a.items != [] {
        SameElements(Trees(a.items), Trees(b.items));
        ItemsEquivalent(a.items, b.items);
      }
    } else {
      LeavesEquivalent(a, b);
    }
  }

  lemma {:induction false} ItemsEquivalent(s: seq<Json>, t: seq<Json>)
    requires Canonicalizable(Arr(s)) && Canonicalizable(Arr(t)) && Distinct(Arr(s)) && Distinct(Arr(t))
    requires Trees(s) == Trees(t)
    ensures Equivalent(Arr(s), Arr(t))
    decreases s, 2
  {
    hide Tree;
    forall i | 0 <= i < |s| ensures Equivalent(s[i], t[i]) {
      assert Tree(s[i]) == Trees(s)[i] == Trees(t)[i] == Tree(t[i]);
      TreesEquivalent(s[i], t[i]);
    }
  }

  lemma {:induction false} PairEquivalent(s: seq<Member>, t: seq<Member>, i: nat, k: nat)
    requires Canonicalizable(Obj(s)) && Canonicalizable(Obj(t)) && Distinct(Obj(s)) && Distinct(Obj(t))
    requires i < |s| && k < |t| && MemberTrees(s)[i] == MemberTrees(t)[k]
    ensures s[i].name == t[k].name && Equivalent(s[i].value, t[k].value)
    ensures Find(t, s[i].name) == Some(t[k].value) && Find(s, t[k].name) == Some(s[i].value)
    decreases s, 0
  {
    hide Canonicalizable, MemberTrees, Tree, Equivalent, Distinct;
    EntryAt(s, i);
    EntryAt(t, k);
    DistinctMember(s, i);
    DistinctMember(t, k);
    FindAt(s, i);
    FindAt(t, k);
    TreesEquivalent(s[i].value, t[k].value);
  }

  lemma {:induction false} MembersEquivalent(s: seq<Member>, t: seq<Member>)
    requires Canonicalizable(Obj(s)) && Canonicalizable(Obj(t)) && Distinct(Obj(s)) && Distinct(Obj(t))
    requires SortedTrees(s) == SortedTrees(t)
    ensures Equivalent(Obj(s), Obj(t))
    decreases s, 1
  {
    hide MemberTrees, Printable, SortByName, Distinct;
    var x, y := MemberTrees(s), MemberTrees(t);
    forall i | 0 <= i < |s|
      ensures Find(t, s[i].name).Some? && Equivalent(s[i].value, Find(t, s[i].name).value)
    {
      SortHolds(x, x[i]);
      SortHolds(y, x[i]);
      var k :| 0 <= k < |t| && y[k] == x[i];
      PairEquivalent(s, t, i, k);
    }
    forall k | 0 <= k < |t| ensures Find(s, t[k].name).Some? {
      SortHolds(x, y[k]);
      SortHolds(y, y[k]);
      var i :| 0 <= i < |s| && x[i] == y[k];
      PairEquivalent(s, t, i, k);
    }
  }

  /** Scalars printed alike are equal: no number reads like a literal, and no two literals alike. */
  lemma LeavesEquivalent(a: Json, b: Json)
    requires !a.Arr? && !a.Obj? && Canonicalizable(a) && Canonicalizable(b) && Tree(a) == Tree(b)
    ensures Equivalent(a, b)
  {
    assert Lit("null")[0] == 0x6E && Lit("true")[0] == 0x74 && Lit("false")[0] == 0x66;
    if a.Str? {
      ItemsDecode(a.text);
      ItemsDecode(b.text);
    }
  }

  /** Two values of JavaScript have one canonical form exactly when they are equal up to the order of
      members and the sign of zero. */
  lemma CanonicalFormIsExact(a: Json, b: Json)
    requires Distinct(a) && Distinct(b) && Canonicalize(a).Some?
    ensures Canonicalize(a) == Canonicalize(b) <==> Equivalent(a, b)
  {
    CanonicalIsTree(a);
    CanonicalIsTree(b);
    if Canonicalize(a) == Canonicalize(b) {
      TreeUnambiguous(a);
      TreeUnambiguous(b);
      OneReading(Tree(a), Tree(b));
      TreesEquivalent(a, b);
    }
    if Equivalent(a, b) {
      EquivalentPrintable(a, b);
      EquivalentTrees(a, b);
    }
  }

  lemma {:induction false} EquivalentItself(a: Json)
    requires Distinct(a)
    ensures Equivalent(a, a)
    decreases a
  {
    match a
    case Arr(items) => {
      forall i | 0 <= i < |items| ensures Equivalent(items[i], items[i]) {
        EquivalentItself(items[i]);
      }
    }
    case Obj(members) => {
      forall i | 0 <= i < |members|
        ensures Find(members, members[i].name) == Some(members[i].value)
          && Equivalent(members[i].value, members[i].value)
      {
        FindAt(members, i);
        EquivalentItself(members[i].value);
      }
    }
    case _ => {
    }
  }

  /** The order of members does not show in the canonical form. */
  lemma Reordered(s: seq<Member>, t: seq<Member>)
    requires Distinct(Obj(s)) && Distinct(Obj(t)) && multiset(s) == multiset(t)
    ensures Canonicalize(Obj(s)) == Canonicalize(Obj(t))
  {
    hide Canonicalize;
    ReorderedEquivalent(s, t);
    ReorderedEquivalent(t, s);
    if Canonicalize(Obj(s)).Some? {
      CanonicalFormIsExact(Obj(s), Obj(t));
    } else if Canonicalize(Obj(t)).Some? {
      CanonicalFormIsExact(Obj(t), Obj(s));
    }
  }

  lemma ReorderedEquivalent(s: seq<Member>, t: seq<Member>)
    requires Distinct(Obj(s)) && Distinct(Obj(t)) && multiset(s) == multiset(t)
    ensures Equivalent(Obj(s), Obj(t))
  {
    forall i | 0 <= i < |s| ensures Find(t, s[i].name) == Some(s[i].value) && Equivalent(s[i].value, s[i].value) {
      assert s[i] in multiset(t);
      var k :| 0 <= k < |t| && t[k] == s[i];
      FindAt(t, k);
      EquivalentItself(s[i].value);
    }
    forall k | 0 <= k < |t| ensures Find(s, t[k].name).Some? {
      assert t[k] in multiset(s);
      var i :| 0 <= i < |s| && s[i] == t[k];
      FindAt(s, i);
    }
  }

  /** The canonical text of a value is accepted exactly when the value nests no deeper than the limit, and then
      as the tree that was printed. */
  lemma CanonicalScansBack(j: Json, limit: nat)
    requires Distinct(j) && Canonicalize(j).Some?
    ensures
      var r := ScanText(Canonicalize(j).value, limit);
      && (r.Scanned? <==> Nesting(j) <= limit)
      && Canonicalizable(j) && (r.Scanned? ==> r.value == Tree(j))
  {
    CanonicalIsTree(j);
    TreeUnambiguous(j);
    TreeDepth(j);
    var text, v := Canonicalize(j).value, Tree(j);
    assert text == [] + ValueText(v) + [];
    if Nesting(j) <= limit {
      ReadsScanned(text, limit, [], v, []);
    } else if ScanText(text, limit).Scanned? {
      var before, w, after := ScannedReads(text, limit);
      ReadsScanned(text, Nesting(j), [], v, []);
      ReadsScanned(text, Nesting(j), before, w, after);
    }
  }

  /** The scanned object has the value's member names, in the order of their code units. */
  lemma SortedNamesComeBack(members: seq<Member>, limit: nat)
    requires Distinct(Obj(members)) && Canonicalize(Obj(members)).Some? && Nesting(Obj(members)) <= limit
    requires members != []
    ensures
      var r := ScanText(Canonicalize(Obj(members)).value, limit);
      && r.Scanned? && r.value.Object?
      && var names := FieldNames(r.value.fields);
      && |names| == |members|
      && (forall i, k | 0 <= i < k < |names| :: Before(names[i], names[k]))
      && (forall i | 0 <= i < |members| :: members[i].name in names)
  {
    hide Canonicalize, Nesting, Before, FieldsOf, FieldNames, SortByName, ScanText;
    CanonicalScansBack(Obj(members), limit);
    var entries := MemberTrees(members);
    DistinctEntries(members);
    SortIncreasing(entries);
    var sorted := SortedTrees(members);
    FieldNamesOf(sorted);
    var names := FieldNames(FieldsOf(sorted));
    forall i | 0 <= i < |members| ensures members[i].name in names {
      assert entries[i] == MemberTree(members[i]);
      SortHolds(entries, entries[i]);
      var k :| 0 <= k < |sorted| && sorted[k] == entries[i];
      assert names[k] == members[i].name;
    }
  }
}
