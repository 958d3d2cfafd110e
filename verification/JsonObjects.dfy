/** Object literals with optional members, as the documents are built: what is written is read back. */
module JsonObjects {
  import opened Wrappers
  import opened CodeUnits
  import opened Json
  import opened Jcs

  /** One member of an object literal; absent when it has no value. */
  datatype Part = Part(name: Text, value: Option<Json>)

  function Members(parts: seq<Part>): seq<Member> {
    if parts == [] then []
    else if parts[0].value.None? then Members(parts[1..])
    else [Member(parts[0].name, parts[0].value.value)] + Members(parts[1..])
  }

  function Object(parts: seq<Part>): Json {
    Obj(Members(parts))
  }

  predicate DistinctNames(parts: seq<Part>) {
    forall i, k | 0 <= i < k < |parts| :: parts[i].name != parts[k].name
  }

  /** The names of these parts are these literals, no two alike. */
  predicate Named(parts: seq<Part>, names: seq<string>) {
    && |parts| == |names|
    && (forall i | 0 <= i < |names| :: Spells(parts[i].name, names[i]))
    && (forall i, k | 0 <= i < k < |names| :: names[i] != names[k])
  }

  lemma NamedApart(parts: seq<Part>, names: seq<string>)
    requires Named(parts, names)
    ensures DistinctNames(parts)
  {
    forall i, k | 0 <= i < k < |parts| ensures parts[i].name != parts[k].name {
      SpelledApart(parts[i].name, names[i], parts[k].name, names[k]);
    }
  }

  lemma {:induction false} FindMissing(parts: seq<Part>, name: Text)
    requires forall i | 0 <= i < |parts| :: parts[i].name != name
    ensures Find(Members(parts), name) == None
    decreases |parts|
  {
    if parts != [] {
      FindMissing(parts[1..], name);
      if parts[0].value.Some? {
        assert Members(parts)[1..] == Members(parts[1..]);
      }
    }
  }

  /** Reading a member of an object literal gives what was written there. */
  lemma {:induction false} ReadsBack(parts: seq<Part>, i: nat)
    requires DistinctNames(parts) && i < |parts|
    ensures Get(Object(parts), parts[i].name) == parts[i].value
    decreases |parts|
  {
    if parts[0].value.Some? {
      assert Members(parts)[1..] == Members(parts[1..]);
    }
    if i > 0 {
      ReadsBack(parts[1..], i - 1);
    } else {
      FindMissing(parts[1..], parts[0].name);
    }
  }

  /** Read by the names themselves, each part of a literal is under its own. */
  lemma AllReadUnder(parts: seq<Part>, names: seq<string>)
    requires Named(parts, names)
    ensures forall i | 0 <= i < |names| :: Under(Object(parts), names[i]) == parts[i].value
  {
    hide Under, Get, Members, DistinctNames, Spells;
    NamedApart(parts, names);
    forall i | 0 <= i < |names| ensures Under(Object(parts), names[i]) == parts[i].value {
      ReadsBack(parts, i);
      UnderKey(Object(parts), names[i], parts[i].name);
    }
  }

  lemma {:induction false} MemberOf(parts: seq<Part>, k: nat) returns (i: nat)
    requires k < |Members(parts)|
    ensures i < |parts| && parts[i].value.Some? && Members(parts)[k] == Member(parts[i].name, parts[i].value.value)
    ensures i >= k
    decreases |parts|
  {
    if parts[0].value.Some? {
      if k == 0 {
        i := 0;
      } else {
        assert Members(parts)[k] == Members(parts[1..])[k - 1];
        i := MemberOf(parts[1..], k - 1);
        i := i + 1;
      }
    } else {
      i := MemberOf(parts[1..], k);
      i := i + 1;
    }
  }

  lemma {:induction false} MembersDistinct(parts: seq<Part>)
    requires DistinctNames(parts)
    ensures forall j, k | 0 <= j < k < |Members(parts)| :: Members(parts)[j].name != Members(parts)[k].name
    decreases |parts|
  {
    if parts != [] {
      MembersDistinct(parts[1..]);
      if parts[0].value.Some? {
        var rest := Members(parts[1..]);
        assert Members(parts)[1..] == rest;
        forall k | 0 <= k < |rest| ensures rest[k].name != parts[0].name {
          var i := MemberOf(parts[1..], k);
        }
      }
    }
  }

  /** No repeated member anywhere, and containers no deeper than this. */
  predicate Shaped(j: Json, depth: nat) {
    Distinct(j) && Nesting(j) <= depth
  }

  predicate PartsShaped(parts: seq<Part>, depth: nat) {
    forall i | 0 <= i < |parts| && parts[i].value.Some? :: Shaped(parts[i].value.value, depth)
  }

  lemma {:induction false} NestingOf(members: seq<Member>, depth: nat)
    requires forall k | 0 <= k < |members| :: Nesting(members[k].value) <= depth
    ensures MembersNesting(members) <= depth
  {
    hide Nesting;
    if members != [] {
      NestingOf(members[1..], depth);
    }
  }

  lemma ObjectShaped(parts: seq<Part>, depth: nat)
    requires DistinctNames(parts) && PartsShaped(parts, depth)
    ensures Shaped(Object(parts), depth + 1)
  {
    var members := Members(parts);
    forall k | 0 <= k < |members| ensures Shaped(members[k].value, depth) {
      var i := MemberOf(parts, k);
    }
    MembersDistinct(parts);
    MembersShaped(members, depth);
  }

  lemma MembersShaped(members: seq<Member>, depth: nat)
    requires forall k | 0 <= k < |members| :: Shaped(members[k].value, depth)
    requires forall j, k | 0 <= j < k < |members| :: members[j].name != members[k].name
    ensures Shaped(Obj(members), depth + 1)
  {
    NestingOf(members, depth);
    forall k | 0 <= k < |members| ensures Distinct(members[k].value) {
      assert Shaped(members[k].value, depth);
    }
  }

  lemma {:induction false} ItemsNestingOf(items: seq<Json>, depth: nat)
    requires forall k | 0 <= k < |items| :: Shaped(items[k], depth)
    ensures ItemsNesting(items) <= depth
  {
    if items != [] {
      ItemsNestingOf(items[1..], depth);
      assert Shaped(items[0], depth);
    }
  }

  lemma ArrayShaped(items: seq<Json>, depth: nat)
    requires forall k | 0 <= k < |items| :: Shaped(items[k], depth)
    ensures Shaped(Arr(items), depth + 1)
  {
    ItemsNestingOf(items, depth);
    forall k | 0 <= k < |items| ensures Distinct(items[k]) {
      assert Shaped(items[k], depth);
    }
  }
}
