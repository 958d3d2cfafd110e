/** Whatever the scanner accepts is a text of the grammar: the tree it recognised prints exactly the
    text scanned, fits under the depth limit and is unambiguous. */
module ScanSoundness {
  import opened Wrappers
  import opened CodeUnits
  import opened Numerals
  import opened Grammar
  import opened Scanning

  lemma Joined(text: Text, i: nat, j: nat, k: nat)
    requires i <= j <= k <= |text|
    ensures text[i..j] + text[j..k] == text[i..k]
  {
  }

  lemma Around(text: Text, i: nat, n: nat, next: nat)
    requires i <= n < next <= |text|
    ensures text[i..next] == text[i..n] + [text[n]] + text[n + 1..next]
  {
  }

  lemma ThreeParts(text: Text, i: nat, j: nat, n: nat, o: nat)
    requires i <= j <= n <= o <= |text|
    ensures text[i..o] == text[i..j] + text[j..n] + text[n..o]
  {
    Joined(text, i, j, n);
    Joined(text, i, n, o);
  }

  /** A field cut at its six seams. */
  lemma FieldParts(text: Text, i: nat, j: nat, k: nat, l: nat, m: nat, n: nat, o: nat)
    requires i <= j <= k <= l < m <= n <= o <= |text|
    ensures text[i..o] ==
      text[i..j] + text[j..k] + text[k..l] + [text[l]] + text[l + 1..m] + text[m..n] + text[n..o]
  {
    ThreeParts(text, i, j, k, l);
    assert text[i..l + 1] == text[i..l] + [text[l]];
    Joined(text, i, l + 1, m);
    ThreeParts(text, i, m, n, o);
  }

  lemma ItemSound(text: Text, i: nat)
    requires i < |text| && ScanItem(text, i).Some?
    ensures
      var item := ScanItem(text, i).value;
      text[i..i + |ItemText(item)|] == ItemText(item)
  {
  }

  lemma ConsItems(item: Item, rest: seq<Item>)
    ensures ItemsText([item] + rest) == ItemText(item) + ItemsText(rest)
    ensures Decoded([item] + rest) == [ItemUnit(item)] + Decoded(rest)
  {
    assert ([item] + rest)[1..] == rest;
  }

  lemma {:induction false} CharsSound(text: Text, i: nat)
    requires i <= |text| && ScanChars(text, i).Some?
    ensures
      var (items, next) := ScanChars(text, i).value;
      text[i..next] == ItemsText(items) + [QUOTE]
    decreases |text| - i
  {
    hide ScanItem, ItemText, ItemUnit, Decoded;
    if text[i] != QUOTE {
      ItemSound(text, i);
      var item := ScanItem(text, i).value;
      var j := i + |ItemText(item)|;
      CharsSound(text, j);
      var (items, next) := ScanChars(text, i).value;
      var (rest, _) := ScanChars(text, j).value;
      ConsItems(item, rest);
      Joined(text, i, j, next);
      assert ItemText(item) + ItemsText(rest) + [QUOTE] == ItemText(item) + (ItemsText(rest) + [QUOTE]);
    }
  }

  lemma StringSound(text: Text, i: nat, path: seq<Text>)
    requires i <= |text| && ScanString(text, i, path).Scanned?
    ensures
      var Scanned(items, next) := ScanString(text, i, path);
      text[i..next] == QuotedText(items)
  {
    var Scanned(items, next) := ScanString(text, i, path);
    CharsSound(text, i + 1);
    assert text[i..next] == [QUOTE] + text[i + 1..next];
    assert QuotedText(items) == [QUOTE] + (ItemsText(items) + [QUOTE]);
  }

  /** What a scanned value, field list or element list at `i` is, nested `depth` deep. */
  ghost predicate ValueFound(text: Text, i: nat, depth: nat, limit: nat, v: Value, next: nat) {
    && i < next <= |text|
    && text[i..next] == ValueText(v)
    && depth + Depth(v) <= limit
    && Unambiguous(v)
  }

  ghost predicate FieldFound(text: Text, i: nat, depth: nat, limit: nat, seen: set<Text>, field: Field, next: nat) {
    && i < next <= |text|
    && text[i..next] == FieldText(field)
    && depth + 1 + Depth(field.value) <= limit
    && Unambiguous(field.value)
    && Decoded(field.name) !in seen
  }

  ghost predicate FieldsFound(text: Text, i: nat, depth: nat, limit: nat, seen: set<Text>, fields: Fields, next: nat) {
    && i < next <= |text|
    && text[i..next] == FieldsText(fields)
    && depth + 1 + FieldsDepth(fields) <= limit
    && FieldsUnambiguous(fields)
    && Names(fields) !! seen
  }

  ghost predicate ElementsFound(text: Text, i: nat, depth: nat, limit: nat, elements: Elements, next: nat) {
    && i < next <= |text|
    && text[i..next] == ElementsText(elements)
    && depth + 1 + ElementsDepth(elements) <= limit
    && ElementsUnambiguous(elements)
  }

  lemma {:induction false} ValueSound(text: Text, i: nat, depth: nat, limit: nat, path: seq<Text>)
    requires i <= |text| && ScanValue(text, i, depth, limit, path).Scanned?
    ensures
      var Scanned(v, next) := ScanValue(text, i, depth, limit, path);
      ValueFound(text, i, depth, limit, v, next)
    decreases |text| - i, 2
  {
    if text[i] == LEFT_BRACE {
      ObjectSound(text, i, depth, limit, path);
    } else if text[i] == LEFT_BRACKET {
      ArraySound(text, i, depth, limit, path);
    } else if text[i] == QUOTE {
      StringSound(text, i, path);
    }
  }

  lemma {:induction false} ObjectSound(text: Text, i: nat, depth: nat, limit: nat, path: seq<Text>)
    requires i < |text| && text[i] == LEFT_BRACE && ScanObject(text, i, depth, limit, path).Scanned?
    ensures
      var Scanned(v, next) := ScanObject(text, i, depth, limit, path);
      ValueFound(text, i, depth, limit, v, next)
    decreases |text| - i, 1
  {
    var Scanned(v, next) := ScanObject(text, i, depth, limit, path);
    assert text[i..next] == [LEFT_BRACE] + text[i + 1..next];
    if v.EmptyObject? {
      var j := SkipSpace(text, i + 1);
      assert text[i + 1..next] == text[i + 1..j] + [RIGHT_BRACE];
    } else {
      FieldsSound(text, i + 1, depth, limit, path, {});
    }
  }

  lemma LastFieldFound(text: Text, i: nat, n: nat, depth: nat, limit: nat, seen: set<Text>, field: Field)
    requires FieldFound(text, i, depth, limit, seen, field, n) && n < |text| && text[n] == RIGHT_BRACE
    ensures FieldsFound(text, i, depth, limit, seen, LastField(field), n + 1)
  {
    assert text[i..n + 1] == text[i..n] + [text[n]];
  }

  lemma NextFieldFound(
    text: Text, i: nat, n: nat, next: nat, depth: nat, limit: nat, seen: set<Text>, field: Field, rest: Fields)
    requires FieldFound(text, i, depth, limit, seen, field, n) && n < |text| && text[n] == COMMA
    requires FieldsFound(text, n + 1, depth, limit, seen + {Decoded(field.name)}, rest, next)
    ensures FieldsFound(text, i, depth, limit, seen, NextField(field, rest), next)
  {
    Around(text, i, n, next);
  }

  lemma {:induction false} FieldsSound(
    text: Text, i: nat, depth: nat, limit: nat, path: seq<Text>, seen: set<Text>)
    requires i <= |text| && ScanFields(text, i, depth, limit, path, seen).Scanned?
    ensures
      var Scanned(fields, next) := ScanFields(text, i, depth, limit, path, seen);
      FieldsFound(text, i, depth, limit, seen, fields, next)
    decreases |text| - i, 3
  {
    hide ScanField, ScanValue, Decoded;
    FieldSound(text, i, depth, limit, path, seen);
    var Scanned(field, n) := ScanField(text, i, depth, limit, path, seen);
    if text[n] == COMMA {
      var names := seen + {Decoded(field.name)};
      FieldsSound(text, n + 1, depth, limit, path, names);
      var Scanned(rest, next) := ScanFields(text, n + 1, depth, limit, path, names);
      NextFieldFound(text, i, n, next, depth, limit, seen, field, rest);
    } else {
      LastFieldFound(text, i, n, depth, limit, seen, field);
    }
  }

  lemma {:induction false} FieldSound(text: Text, i: nat, depth: nat, limit: nat, path: seq<Text>, seen: set<Text>)
    requires i <= |text| && ScanField(text, i, depth, limit, path, seen).Scanned?
    ensures
      var Scanned(field, next) := ScanField(text, i, depth, limit, path, seen);
      FieldFound(text, i, depth, limit, seen, field, next)
    decreases |text| - i, 2
  {
    var Scanned(field, o) := ScanField(text, i, depth, limit, path, seen);
    var j := SkipSpace(text, i);
    StringSound(text, j, path);
    var Scanned(items, k) := ScanString(text, j, path);
    var l := SkipSpace(text, k);
    var m := SkipSpace(text, l + 1);
    var inside := path + [Decoded(items)];
    ValueSound(text, m, depth + 1, limit, inside);
    var Scanned(value, n) := ScanValue(text, m, depth + 1, limit, inside);
    FieldParts(text, i, j, k, l, m, n, o);
  }

  lemma {:induction false} ArraySound(text: Text, i: nat, depth: nat, limit: nat, path: seq<Text>)
    requires i < |text| && text[i] == LEFT_BRACKET && ScanArray(text, i, depth, limit, path).Scanned?
    ensures
      var Scanned(v, next) := ScanArray(text, i, depth, limit, path);
      ValueFound(text, i, depth, limit, v, next)
    decreases |text| - i, 1
  {
    var Scanned(v, next) := ScanArray(text, i, depth, limit, path);
    assert text[i..next] == [LEFT_BRACKET] + text[i + 1..next];
    if v.EmptyArray? {
      var j := SkipSpace(text, i + 1);
      assert text[i + 1..next] == text[i + 1..j] + [RIGHT_BRACKET];
    } else {
      ElementsSound(text, i + 1, depth, limit, path, 0);
    }
  }

  ghost predicate SlotFound(text: Text, i: nat, depth: nat, limit: nat, slot: Slot, next: nat) {
    && i < next <= |text|
    && text[i..next] == SlotText(slot)
    && depth + 1 + Depth(slot.value) <= limit
    && Unambiguous(slot.value)
  }

  lemma LastSlotFound(text: Text, i: nat, n: nat, depth: nat, limit: nat, slot: Slot)
    requires SlotFound(text, i, depth, limit, slot, n) && n < |text| && text[n] == RIGHT_BRACKET
    ensures ElementsFound(text, i, depth, limit, LastSlot(slot), n + 1)
  {
    assert text[i..n + 1] == text[i..n] + [text[n]];
  }

  lemma NextSlotFound(text: Text, i: nat, n: nat, next: nat, depth: nat, limit: nat, slot: Slot, more: Elements)
    requires SlotFound(text, i, depth, limit, slot, n) && n < |text| && text[n] == COMMA
    requires ElementsFound(text, n + 1, depth, limit, more, next)
    ensures ElementsFound(text, i, depth, limit, NextSlot(slot, more), next)
  {
    Around(text, i, n, next);
  }

  lemma {:induction false} ElementsSound(text: Text, i: nat, depth: nat, limit: nat, path: seq<Text>, element: nat)
    requires i <= |text| && ScanElements(text, i, depth, limit, path, element).Scanned?
    ensures
      var Scanned(elements, next) := ScanElements(text, i, depth, limit, path, element);
      ElementsFound(text, i, depth, limit, elements, next)
    decreases |text| - i, 3
  {
    hide ScanValue, Decimal, SkipSpace, ValueText, Depth, Unambiguous;
    var j := SkipSpace(text, i);
    var inside := path + [Decimal(element)];
    ValueSound(text, j, depth + 1, limit, inside);
    var Scanned(value, n) := ScanValue(text, j, depth + 1, limit, inside);
    var o := SkipSpace(text, n);
    var slot := Slot(text[i..j], value, text[n..o]);
    ThreeParts(text, i, j, n, o);
    assert SlotFound(text, i, depth, limit, slot, o);
    if text[o] == COMMA {
      ElementsSound(text, o + 1, depth, limit, path, element + 1);
      var Scanned(more, next) := ScanElements(text, o + 1, depth, limit, path, element + 1);
      NextSlotFound(text, i, o, next, depth, limit, slot, more);
    } else {
      LastSlotFound(text, i, o, depth, limit, slot);
    }
  }
}
