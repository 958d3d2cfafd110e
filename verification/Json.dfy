/** JSON values with their members in order, as JSON.parse builds them and JCS prints them. */
module Json {
  import opened Wrappers
  import opened CodeUnits

  /** Digits, a sign, a point and an exponent: all that `String(n)` writes for a finite number. */
  predicate IsNumberText(t: Text) {
    && |t| > 0
    && (0x30 <= t[0] <= 0x39 || t[0] == 0x2D)
    && forall i | 0 <= i < |t| ::
         0x30 <= t[i] <= 0x39 || t[i] == 0x65 || t[i] == 0x2B || t[i] == 0x2D || t[i] == 0x2E
  }

  type NumberText = t: Text | IsNumberText(t) witness [0x30]

  /** A JavaScript number. A finite one is known only by the text `String(n)` gives it. */
  datatype Number = NonFinite | NegativeZero | Finite(token: NumberText)

  datatype Json =
    | Null
    | Bool(value: bool)
    | Num(number: Number)
    | Str(text: Text)
    | Arr(items: seq<Json>)
    | Obj(members: seq<Member>)

  datatype Member = Member(name: Text, value: Json)

  function Find(members: seq<Member>, name: Text): Option<Json> {
    if members == [] then None
    else if members[0].name == name then Some(members[0].value)
    else Find(members[1..], name)
  }

  /** `value[name]`: undefined for anything but an object holding that member. */
  function Get(value: Json, name: Text): Option<Json> {
    if value.Obj? then Find(value.members, name) else None
  }

  /** The text of a string member, undefined when it is absent or not a string. */
  function GetText(value: Json, name: Text): Option<Text> {
    match Get(value, name)
    case Some(Str(text)) => Some(text)
    case _ => None
  }

  function FindSpelled(members: seq<Member>, name: string): Option<Json> {
    if members == [] then None
    else if Spells(members[0].name, name) then Some(members[0].value)
    else FindSpelled(members[1..], name)
  }

  /** What a document holds under a name. */
  function Under(j: Json, name: string): Option<Json> {
    if j.Obj? then FindSpelled(j.members, name) else None
  }

  lemma {:induction false} FoundSpelled(members: seq<Member>, name: string, key: Text)
    requires Spells(key, name)
    ensures FindSpelled(members, name) == Find(members, key)
  {
    if members != [] {
      assert Spells(members[0].name, name) <==> members[0].name == key;
      FoundSpelled(members[1..], name, key);
    }
  }

  lemma UnderKey(j: Json, name: string, key: Text)
    requires Spells(key, name)
    ensures Under(j, name) == Get(j, key)
  {
    if j.Obj? {
      FoundSpelled(j.members, name, key);
    }
  }

  function ObjectUnder(j: Json, name: string): Option<Json> {
    var value := Under(j, name);
    if value.Some? && value.value.Obj? then value else None
  }

  predicate IsText(value: Option<Json>) {
    value.Some? && value.value.Str?
  }

  predicate ReadsText(value: Option<Json>, text: string) {
    IsText(value) && Spells(value.value.text, text)
  }

  lemma ReadsExactly(value: Option<Json>, text: string, t: Text)
    requires Spells(t, text)
    ensures ReadsText(value, text) <==> value == Some(Str(t))
  {
    if ReadsText(value, text) {
      assert value.value.text == t;
    }
  }
}
