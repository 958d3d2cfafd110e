/** What a refusal's path means: it leads, through complete earlier siblings, to the member that repeats a
    name or to the container that nests too deep. */
module ScanBlame {
  import opened Wrappers
  import opened CodeUnits
  import opened Numerals
  import opened Grammar
  import opened Scanning
  import opened ScanCompleteness
  import ScanSoundness

  /** One step into a container: the complete siblings before, then what leads to the value entered. */
  datatype Step =
    | InField(fields: seq<Field>, before: Space, name: seq<Item>, gap: Space, lead: Space)
    | InSlot(slots: seq<Slot>, before: Space)

  /** Where the path ends: at a name an earlier field of the same object has, or at a container. */
  datatype Ending = Repeats(fields: seq<Field>, before: Space, name: seq<Item>) | Opens(bracket: CodeUnit)

  datatype Trail = Trail(steps: seq<Step>, ending: Ending)

  function PriorFields(fields: seq<Field>): Text {
    if fields == [] then []
    else PriorFields(fields[..|fields| - 1]) + (FieldText(fields[|fields| - 1]) + [COMMA])
  }

  function PriorSlots(slots: seq<Slot>): Text {
    if slots == [] then []
    else PriorSlots(slots[..|slots| - 1]) + (SlotText(slots[|slots| - 1]) + [COMMA])
  }

  function StepText(step: Step): Text {
    match step
    case InField(fields, before, name, gap, lead) =>
      [LEFT_BRACE] + PriorFields(fields) + (before + QuotedText(name) + (gap + [COLON] + lead))
    case InSlot(slots, before) => [LEFT_BRACKET] + PriorSlots(slots) + before
  }

  function StepName(step: Step): Text {
    match step
    case InField(_, _, name, _, _) => Decoded(name)
    case InSlot(slots, _) => Decimal(|slots|)
  }

  function EndingText(ending: Ending): Text {
    match ending
    case Repeats(fields, before, name) => [LEFT_BRACE] + PriorFields(fields) + (before + QuotedText(name))
    case Opens(bracket) => [bracket]
  }

  function TrailText(steps: seq<Step>, ending: Ending): Text {
    if steps == [] then EndingText(ending) else StepText(steps[0]) + TrailText(steps[1..], ending)
  }

  function TrailPath(steps: seq<Step>, ending: Ending): seq<Text> {
    if steps != [] then [StepName(steps[0])] + TrailPath(steps[1..], ending)
    else if ending.Repeats? then [Decoded(ending.name)] else []
  }

  predicate HasName(fields: seq<Field>, name: Text) {
    exists k | 0 <= k < |fields| :: Decoded(fields[k].name) == name
  }

  /** The trail is in the text at `i`, and ends at a fault of this kind with `room` levels to go there. */
  predicate Blames(text: Text, i: nat, code: Code, t: Trail, room: nat) {
    && At(text, i, TrailText(t.steps, t.ending))
    && match t.ending
       case Repeats(fields, _, name) => code == DuplicateMember && HasName(fields, Decoded(name))
       case Opens(bracket) =>
         code == DepthLimitExceeded && |t.steps| == room && (bracket == LEFT_BRACE || bracket == LEFT_BRACKET)
  }

  lemma AtJoin(text: Text, i: nat, a: Text, b: Text)
    requires At(text, i, a) && At(text, i + |a|, b)
    ensures At(text, i, a + b)
  {
    assert text[i..i + |a| + |b|] == text[i..i + |a|] + text[i + |a|..i + |a| + |b|];
  }

  lemma AtUnit(text: Text, i: nat, u: CodeUnit)
    requires i < |text| && text[i] == u
    ensures At(text, i, [u])
  {
  }

  lemma AtHere(text: Text, i: nat, j: nat)
    requires i <= j <= |text|
    ensures At(text, i, text[i..j])
  {
  }

  /** One more step in front of a trail. */
  lemma Extended(text: Text, i: nat, step: Step, code: Code, t: Trail, room: nat)
    requires At(text, i, StepText(step)) && Blames(text, i + |StepText(step)|, code, t, room)
    ensures
      var longer := Trail([step] + t.steps, t.ending);
      Blames(text, i, code, longer, room + 1)
      && TrailPath(longer.steps, longer.ending) == [StepName(step)] + TrailPath(t.steps, t.ending)
  {
    hide At, StepText, StepName, EndingText, HasName;
    var steps := [step] + t.steps;
    assert steps[1..] == t.steps;
    AtJoin(text, i, StepText(step), TrailText(t.steps, t.ending));
  }

  lemma FieldStepAt(text: Text, i: nat, s: nat, j: nat, k: nat, l: nat, m: nat, fields: seq<Field>, name: seq<Item>)
    requires i < s <= j <= k <= l < m <= |text| && text[i] == LEFT_BRACE && text[l] == COLON
    requires text[i + 1..s] == PriorFields(fields) && text[j..k] == QuotedText(name)
    requires AllSpace(text[s..j]) && AllSpace(text[k..l]) && AllSpace(text[l + 1..m])
    ensures
      var step := InField(fields, text[s..j], name, text[k..l], text[l + 1..m]);
      At(text, i, StepText(step)) && i + |StepText(step)| == m
  {
    hide PriorFields, QuotedText;
    OpeningAt(text, i, s, LEFT_BRACE);
    assert text[s..k] == text[s..j] + text[j..k];
    assert text[k..m] == text[k..l] + [text[l]] + text[l + 1..m];
    assert text[i..m] == text[i..s] + (text[s..k] + text[k..m]);
  }

  lemma OpeningAt(text: Text, i: nat, s: nat, u: CodeUnit)
    requires i < s <= |text| && text[i] == u
    ensures text[i..s] == [u] + text[i + 1..s]
  {
  }

  lemma SlotStepAt(text: Text, i: nat, s: nat, j: nat, slots: seq<Slot>)
    requires i < s <= j <= |text| && text[i] == LEFT_BRACKET
    requires text[i + 1..s] == PriorSlots(slots) && AllSpace(text[s..j])
    ensures
      var step := InSlot(slots, text[s..j]);
      At(text, i, StepText(step)) && i + |StepText(step)| == j
  {
    hide PriorSlots;
    OpeningAt(text, i, s, LEFT_BRACKET);
    assert text[i..j] == text[i..s] + text[s..j];
  }

  lemma RepeatAt(text: Text, i: nat, s: nat, j: nat, k: nat, fields: seq<Field>, name: seq<Item>)
    requires i < s <= j <= k <= |text| && text[i] == LEFT_BRACE
    requires text[i + 1..s] == PriorFields(fields) && text[j..k] == QuotedText(name) && AllSpace(text[s..j])
    ensures At(text, i, EndingText(Repeats(fields, text[s..j], name)))
  {
    hide PriorFields, QuotedText;
    OpeningAt(text, i, s, LEFT_BRACE);
    assert text[s..k] == text[s..j] + text[j..k];
    assert text[i..k] == text[i..s] + text[s..k];
  }

  lemma {:induction false} ValueBlame(text: Text, i: nat, depth: nat, limit: nat, path: seq<Text>) returns (t: Trail)
    requires i <= |text| && depth <= limit && ScanValue(text, i, depth, limit, path).Failed?
    requires ScanValue(text, i, depth, limit, path).code != ScanIncomplete
    ensures
      var Failed(code, at) := ScanValue(text, i, depth, limit, path);
      Blames(text, i, code, t, limit - depth) && at == path + TrailPath(t.steps, t.ending)
    decreases |text| - i, 5
  {
    hide ScanString, ScanFields, ScanElements, StepText, StepName;
    OnlyIncomplete(text, i, path);
    t := Trail([], Opens(text[i]));
    assert NamesOf([]) == {} && path + [] == path;
    if depth == limit {
      AtUnit(text, i, text[i]);
    } else if text[i] == LEFT_BRACE {
      t := FieldsBlame(text, i, i + 1, depth, limit, path, []);
    } else {
      t := ElementsBlame(text, i, i + 1, depth, limit, path, []);
    }
  }

  function NamesOf(fields: seq<Field>): set<Text> {
    set k | 0 <= k < |fields| :: Decoded(fields[k].name)
  }

  lemma {:induction false} FieldsBlame(
    text: Text, i: nat, s: nat, depth: nat, limit: nat, path: seq<Text>, fields: seq<Field>) returns (t: Trail)
    requires i < s <= |text| && text[i] == LEFT_BRACE && depth < limit && text[i + 1..s] == PriorFields(fields)
    requires ScanFields(text, s, depth, limit, path, NamesOf(fields)).Failed?
    requires ScanFields(text, s, depth, limit, path, NamesOf(fields)).code != ScanIncomplete
    ensures
      var Failed(code, at) := ScanFields(text, s, depth, limit, path, NamesOf(fields));
      Blames(text, i, code, t, limit - depth) && at == path + TrailPath(t.steps, t.ending)
    decreases |text| - s, 4
  {
    hide ScanField, NamesOf, PriorFields, Blames, TrailPath;
    var names := NamesOf(fields);
    if ScanField(text, s, depth, limit, path, names).Failed? {
      t := FieldBlame(text, i, s, depth, limit, path, fields);
    } else {
      var Scanned(field, n) := ScanField(text, s, depth, limit, path, names);
      ScanSoundness.FieldSound(text, s, depth, limit, path, names);
      MoreFields(text, i, s, n, fields, field);
      t := FieldsBlame(text, i, n + 1, depth, limit, path, fields + [field]);
    }
  }

  lemma MoreFields(text: Text, i: nat, s: nat, n: nat, fields: seq<Field>, field: Field)
    requires i < s <= n < |text| && text[n] == COMMA
    requires text[i + 1..s] == PriorFields(fields) && text[s..n] == FieldText(field)
    ensures text[i + 1..n + 1] == PriorFields(fields + [field])
    ensures NamesOf(fields + [field]) == NamesOf(fields) + {Decoded(field.name)}
  {
    hide FieldText, Decoded;
    var more := fields + [field];
    assert more[..|more| - 1] == fields;
    assert text[i + 1..n + 1] == text[i + 1..s] + (text[s..n] + [text[n]]);
    assert more[|fields|] == field && forall k | 0 <= k < |fields| :: more[k] == fields[k];
    forall name | name in NamesOf(fields) + {Decoded(field.name)} ensures name in NamesOf(more) {
      if name == Decoded(field.name) {
        assert Decoded(more[|fields|].name) == name;
      } else {
        var k :| 0 <= k < |fields| && Decoded(fields[k].name) == name;
        assert Decoded(more[k].name) == name;
      }
    }
  }

  /** A name that an earlier field of the object has. */
  lemma RepeatBlame(
    text: Text, i: nat, s: nat, j: nat, k: nat, room: nat, fields: seq<Field>, name: seq<Item>) returns (t: Trail)
    requires i < s <= j <= k <= |text| && text[i] == LEFT_BRACE
    requires text[i + 1..s] == PriorFields(fields) && text[j..k] == QuotedText(name) && AllSpace(text[s..j])
    requires Decoded(name) in NamesOf(fields)
    ensures Blames(text, i, DuplicateMember, t, room) && TrailPath(t.steps, t.ending) == [Decoded(name)]
  {
    hide PriorFields, QuotedText, Decoded;
    t := Trail([], Repeats(fields, text[s..j], name));
    RepeatAt(text, i, s, j, k, fields, name);
  }

  /** A fault inside the value of a field. */
  lemma InnerBlame(
    text: Text, i: nat, s: nat, j: nat, k: nat, l: nat, m: nat, room: nat, fields: seq<Field>, name: seq<Item>,
    code: Code, inner: Trail)
    returns (t: Trail)
    requires i < s <= j <= k <= l < m <= |text| && text[i] == LEFT_BRACE && text[l] == COLON
    requires text[i + 1..s] == PriorFields(fields) && text[j..k] == QuotedText(name)
    requires AllSpace(text[s..j]) && AllSpace(text[k..l]) && AllSpace(text[l + 1..m])
    requires Blames(text, m, code, inner, room)
    ensures Blames(text, i, code, t, room + 1)
    ensures TrailPath(t.steps, t.ending) == [Decoded(name)] + TrailPath(inner.steps, inner.ending)
  {
    hide PriorFields, QuotedText, Decoded, StepText, Blames, TrailPath;
    var step := InField(fields, text[s..j], name, text[k..l], text[l + 1..m]);
    FieldStepAt(text, i, s, j, k, l, m, fields, name);
    Extended(text, i, step, code, inner, room);
    t := Trail([step] + inner.steps, inner.ending);
  }

  lemma {:induction false} FieldBlame(
    text: Text, i: nat, s: nat, depth: nat, limit: nat, path: seq<Text>, fields: seq<Field>) returns (t: Trail)
    requires i < s <= |text| && text[i] == LEFT_BRACE && depth < limit && text[i + 1..s] == PriorFields(fields)
    requires ScanField(text, s, depth, limit, path, NamesOf(fields)).Failed?
    requires ScanField(text, s, depth, limit, path, NamesOf(fields)).code != ScanIncomplete
    ensures
      var Failed(code, at) := ScanField(text, s, depth, limit, path, NamesOf(fields));
      Blames(text, i, code, t, limit - depth) && at == path + TrailPath(t.steps, t.ending)
    decreases |text| - s, 3
  {
    hide ScanString, ScanValue, SkipSpace, Decoded, PriorFields, NamesOf, QuotedText, Blames, TrailPath;
    var j := SkipSpace(text, s);
    OnlyIncomplete(text, j, path);
    ScanSoundness.StringSound(text, j, path);
    var Scanned(name, k) := ScanString(text, j, path);
    var inside := path + [Decoded(name)];
    if Decoded(name) in NamesOf(fields) {
      t := RepeatBlame(text, i, s, j, k, limit - depth, fields, name);
    } else {
      var l := SkipSpace(text, k);
      var m := SkipSpace(text, l + 1);
      var inner := ValueBlame(text, m, depth + 1, limit, inside);
      var code := ScanValue(text, m, depth + 1, limit, inside).code;
      t := InnerBlame(text, i, s, j, k, l, m, limit - depth - 1, fields, name, code, inner);
    }
  }

  lemma OnlyIncomplete(text: Text, i: nat, path: seq<Text>)
    requires i <= |text|
    ensures ScanString(text, i, path).Failed? ==> ScanString(text, i, path).code == ScanIncomplete
  {
  }

  lemma {:induction false} ElementsBlame(
    text: Text, i: nat, s: nat, depth: nat, limit: nat, path: seq<Text>, slots: seq<Slot>) returns (t: Trail)
    requires i < s <= |text| && text[i] == LEFT_BRACKET && depth < limit && text[i + 1..s] == PriorSlots(slots)
    requires ScanElements(text, s, depth, limit, path, |slots|).Failed?
    requires ScanElements(text, s, depth, limit, path, |slots|).code != ScanIncomplete
    ensures
      var Failed(code, at) := ScanElements(text, s, depth, limit, path, |slots|);
      Blames(text, i, code, t, limit - depth) && at == path + TrailPath(t.steps, t.ending)
    decreases |text| - s, 6
  {
    hide ScanValue, SkipSpace, PriorSlots, Decimal, StepText, Blames, TrailPath, SlotText;
    var j := SkipSpace(text, s);
    var inside := path + [Decimal(|slots|)];
    if ScanValue(text, j, depth + 1, limit, inside).Failed? {
      var inner := ValueBlame(text, j, depth + 1, limit, inside);
      var step := InSlot(slots, text[s..j]);
      SlotStepAt(text, i, s, j, slots);
      var Failed(code, at) := ScanValue(text, j, depth + 1, limit, inside);
      Extended(text, i, step, code, inner, limit - depth - 1);
      t := Trail([step] + inner.steps, inner.ending);
    } else {
      var Scanned(value, n) := ScanValue(text, j, depth + 1, limit, inside);
      var o := SkipSpace(text, n);
      ScanSoundness.ValueSound(text, j, depth + 1, limit, inside);
      var slot := Slot(text[s..j], value, text[n..o]);
      MoreSlots(text, i, s, j, n, o, slots, slot);
      t := ElementsBlame(text, i, o + 1, depth, limit, path, slots + [slot]);
    }
  }

  lemma MoreSlots(text: Text, i: nat, s: nat, j: nat, n: nat, o: nat, slots: seq<Slot>, slot: Slot)
    requires i < s <= j <= n <= o < |text| && text[o] == COMMA && text[i + 1..s] == PriorSlots(slots)
    requires text[s..j] == slot.before && text[j..n] == ValueText(slot.value) && text[n..o] == slot.after
    ensures text[i + 1..o + 1] == PriorSlots(slots + [slot])
  {
    hide ValueText;
    var more := slots + [slot];
    assert more[..|more| - 1] == slots;
    ScanSoundness.ThreeParts(text, s, j, n, o);
    assert text[i + 1..o + 1] == text[i + 1..s] + (text[s..o] + [text[o]]);
  }

  /** The trail lies at the start of the text, after some space, and the path names its steps. */
  predicate Leads(text: Text, path: seq<Text>, before: Space, t: Trail) {
    At(text, 0, before + TrailText(t.steps, t.ending)) && path == TrailPath(t.steps, t.ending)
  }

  /** The path leads to an object in which a complete earlier field already has the path's last name. */
  ghost predicate LeadsToRepeat(text: Text, path: seq<Text>) {
    exists before: Space, t: Trail ::
      Leads(text, path, before, t) && t.ending.Repeats? && HasName(t.ending.fields, Decoded(t.ending.name))
  }

  /** The path leads to a container inside exactly `limit` others. */
  ghost predicate LeadsTooDeep(text: Text, path: seq<Text>, limit: nat) {
    exists before: Space, t: Trail ::
      Leads(text, path, before, t) && |t.steps| == limit
      && (t.ending == Opens(LEFT_BRACE) || t.ending == Opens(LEFT_BRACKET))
  }

  /** Every refusal that blames the content names a path that leads to what it blames. */
  lemma RefusalIsThere(text: Text, limit: nat)
    requires ScanText(text, limit).Failed?
    ensures
      var Failed(code, path) := ScanText(text, limit);
      && (code == DuplicateMember ==> LeadsToRepeat(text, path))
      && (code == DepthLimitExceeded ==> LeadsTooDeep(text, path, limit))
  {
    hide ScanValue, SkipSpace, TrailText, TrailPath, HasName, At;
    var Failed(code, path) := ScanText(text, limit);
    if code != ScanIncomplete {
      var i := SkipSpace(text, 0);
      var t := ValueBlame(text, i, 0, limit, []);
      var before: Space := text[0..i];
      AtHere(text, 0, i);
      AtJoin(text, 0, before, TrailText(t.steps, t.ending));
      assert [] + TrailPath(t.steps, t.ending) == TrailPath(t.steps, t.ending);
      assert Leads(text, path, before, t);
    }
  }
}
