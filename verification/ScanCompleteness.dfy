/** Every text of the grammar that fits and is unambiguous is accepted, and as the tree that prints it:
    so the scanner accepts exactly the grammar, and no text has two readings. */
module ScanCompleteness {
  import opened Wrappers
  import opened CodeUnits
  import opened Numerals
  import opened Grammar
  import opened Scanning
  import ScanSoundness

  /** The text reads `s` from `i` on. */
  predicate At(text: Text, i: nat, s: Text) {
    i + |s| <= |text| && text[i..i + |s|] == s
  }

  lemma AtSlice(text: Text, i: nat, j: nat, s: Text)
    requires At(text, i, s) && j == i + |s|
    ensures j <= |text| && text[i..j] == s
  {
  }

  lemma AtSplit(text: Text, i: nat, a: Text, b: Text)
    requires At(text, i, a + b)
    ensures At(text, i, a) && At(text, i + |a|, b)
  {
    assert text[i..i + |a|] == (a + b)[..|a|] == a;
    assert text[i + |a|..i + |a| + |b|] == (a + b)[|a|..] == b;
  }

  lemma AtFirst(text: Text, i: nat, u: CodeUnit, rest: Text)
    requires At(text, i, [u] + rest)
    ensures i < |text| && text[i] == u && At(text, i + 1, rest)
  {
    AtSplit(text, i, [u], rest);
    assert text[i..i + 1][0] == u;
  }

  lemma AtLast(text: Text, i: nat, s: Text, u: CodeUnit)
    requires At(text, i, s + [u])
    ensures At(text, i, s) && i + |s| < |text| && text[i + |s|] == u
  {
    AtSplit(text, i, s, [u]);
    assert text[i + |s|..i + |s| + 1][0] == u;
  }

  /** Skipping stops exactly where the space ends. */
  lemma SkipExact(text: Text, i: nat, space: Space)
    requires At(text, i, space)
    requires i + |space| == |text| || !IsSpace(text[i + |space|])
    ensures SkipSpace(text, i) == i + |space|
  {
    var n, j := SkipSpace(text, i), i + |space|;
    forall k | i <= k < n ensures IsSpace(text[k]) {
      assert text[k] == text[i..n][k - i];
    }
    forall k | i <= k < j ensures IsSpace(text[k]) {
      assert text[k] == space[k - i];
    }
  }

  lemma BareExact(text: Text, i: nat, token: Token)
    requires At(text, i, token)
    requires i + |token| == |text| || !IsBare(text[i + |token|])
    ensures SkipBare(text, i) == i + |token|
  {
    var n, j := SkipBare(text, i), i + |token|;
    forall k | i <= k < n ensures IsBare(text[k]) {
      assert text[k] == text[i..n][k - i];
    }
    forall k | i <= k < j ensures IsBare(text[k]) {
      assert text[k] == token[k - i];
    }
  }

  // ---------------------------------------------------------------- strings

  lemma ItemComplete(text: Text, i: nat, item: Item)
    requires At(text, i, ItemText(item))
    ensures i < |text| && text[i] != QUOTE && ScanItem(text, i) == Some(item)
  {
    assert text[i] == ItemText(item)[0];
    match item
    case Plain(unit) =>
    case Short(letter) => assert text[i + 1] == ItemText(item)[1];
    case Hex(digits) =>
      assert text[i + 1] == ItemText(item)[1];
      AtSplit(text, i, [BACKSLASH, LETTER_U], digits);
  }

  lemma {:induction false} CharsComplete(text: Text, i: nat, items: seq<Item>)
    requires At(text, i, ItemsText(items) + [QUOTE])
    ensures ScanChars(text, i) == Some((items, i + |ItemsText(items)| + 1))
    decreases |items|
  {
    hide At, ScanItem, ItemText;
    if items == [] {
      assert ItemsText(items) + [QUOTE] == [QUOTE] + [];
      AtFirst(text, i, QUOTE, []);
    } else {
      var item, rest := items[0], items[1..];
      assert items == [item] + rest;
      assert ItemsText(items) + [QUOTE] == ItemText(item) + (ItemsText(rest) + [QUOTE]);
      AtSplit(text, i, ItemText(item), ItemsText(rest) + [QUOTE]);
      ItemComplete(text, i, item);
      CharsComplete(text, i + |ItemText(item)|, rest);
    }
  }

  /** A quoted string is read back exactly, whatever follows it. */
  lemma StringComplete(text: Text, i: nat, items: seq<Item>, path: seq<Text>)
    requires At(text, i, QuotedText(items))
    ensures ScanString(text, i, path) == Scanned(items, i + |QuotedText(items)|)
  {
    assert QuotedText(items) == [QUOTE] + (ItemsText(items) + [QUOTE]);
    AtFirst(text, i, QUOTE, ItemsText(items) + [QUOTE]);
    CharsComplete(text, i + 1, items);
  }

  // ---------------------------------------------------------------- values

  /** What a value can begin with. */
  lemma ValueStart(v: Value)
    ensures |ValueText(v)| > 0
    ensures
      var u := ValueText(v)[0];
      && !IsSpace(u) && u != RIGHT_BRACE && u != RIGHT_BRACKET
      && (v.Bare? ==> u != LEFT_BRACE && u != LEFT_BRACKET && u != QUOTE)
      && (v.Quoted? ==> u == QUOTE)
      && (v.EmptyArray? || v.Array? ==> u == LEFT_BRACKET)
      && (v.EmptyObject? || v.Object? ==> u == LEFT_BRACE)
  {
  }

  /** Nothing that could extend a bare token follows the value. */
  predicate Ends(text: Text, v: Value, end: nat) {
    v.Bare? ==> end == |text| || (end < |text| && !IsBare(text[end]))
  }

  predicate Separates(text: Text, n: nat, close: CodeUnit) {
    n < |text| && (text[n] == COMMA || text[n] == close)
  }

  lemma {:induction false} ValueComplete(text: Text, i: nat, depth: nat, limit: nat, path: seq<Text>, v: Value)
    requires At(text, i, ValueText(v)) && Ends(text, v, i + |ValueText(v)|)
    requires Unambiguous(v) && depth + Depth(v) <= limit
    ensures ScanValue(text, i, depth, limit, path) == Scanned(v, i + |ValueText(v)|)
    decreases v, 0
  {
    hide At, ScanArray, ScanObject, ScanString, ElementsText, FieldsText, QuotedText, SkipBare;
    hide ElementsUnambiguous, FieldsUnambiguous, ElementsDepth, FieldsDepth;
    AtStart(text, i, v);
    match v
    case Bare(token) => BareExact(text, i, token);
    case Quoted(items) => StringComplete(text, i, items, path);
    case EmptyArray(space) => EmptyArrayComplete(text, i, depth, limit, path, space);
    case Array(elements) => ArrayComplete(text, i, depth, limit, path, elements);
    case EmptyObject(space) => EmptyObjectComplete(text, i, depth, limit, path, space);
    case Object(fields) => ObjectComplete(text, i, depth, limit, path, fields);
  }

  /** The unit a value begins with, where it lies. */
  lemma AtStart(text: Text, i: nat, v: Value)
    requires At(text, i, ValueText(v))
    ensures |ValueText(v)| > 0 && i < |text| && text[i] == ValueText(v)[0] && i + |ValueText(v)| <= |text|
    ensures v.Bare? ==> text[i] != LEFT_BRACE && text[i] != LEFT_BRACKET && text[i] != QUOTE
    ensures v.Bare? ==> text[i..i + |ValueText(v)|] == ValueText(v)
    ensures v.Quoted? ==> text[i] == QUOTE
    ensures v.EmptyArray? || v.Array? ==> text[i] == LEFT_BRACKET
    ensures v.EmptyObject? || v.Object? ==> text[i] == LEFT_BRACE
  {
    ValueStart(v);
    hide ValueText;
    assert text[i] == ValueText(v)[0];
  }

  lemma {:induction false} ArrayComplete(
    text: Text, i: nat, depth: nat, limit: nat, path: seq<Text>, elements: Elements)
    requires At(text, i, [LEFT_BRACKET] + ElementsText(elements))
    requires ElementsUnambiguous(elements) && depth + 1 + ElementsDepth(elements) <= limit
    ensures i < |text| && text[i] == LEFT_BRACKET
    ensures ScanArray(text, i, depth, limit, path) == Scanned(Array(elements), i + 1 + |ElementsText(elements)|)
    decreases elements, 2
  {
    hide ScanElements, ElementsText, ElementsUnambiguous, ElementsDepth, SkipSpace;
    AtFirst(text, i, LEFT_BRACKET, ElementsText(elements));
    ElementsComplete(text, i + 1, depth, limit, path, 0, elements);
    FirstSlotOpens(text, i + 1, elements);
  }

  lemma {:induction false} ObjectComplete(
    text: Text, i: nat, depth: nat, limit: nat, path: seq<Text>, fields: Fields)
    requires At(text, i, [LEFT_BRACE] + FieldsText(fields))
    requires FieldsUnambiguous(fields) && depth + 1 + FieldsDepth(fields) <= limit
    ensures i < |text| && text[i] == LEFT_BRACE
    ensures ScanObject(text, i, depth, limit, path) == Scanned(Object(fields), i + 1 + |FieldsText(fields)|)
    decreases fields, 1
  {
    hide ScanFields, FieldsText, FieldsUnambiguous, FieldsDepth, SkipSpace;
    AtFirst(text, i, LEFT_BRACE, FieldsText(fields));
    FieldsComplete(text, i + 1, depth, limit, path, {}, fields);
    FirstFieldOpens(text, i + 1, fields);
  }

  lemma EmptyArrayComplete(text: Text, i: nat, depth: nat, limit: nat, path: seq<Text>, space: Space)
    requires At(text, i, [LEFT_BRACKET] + space + [RIGHT_BRACKET]) && depth < limit
    ensures i < |text| && text[i] == LEFT_BRACKET
    ensures ScanArray(text, i, depth, limit, path) == Scanned(EmptyArray(space), i + |space| + 2)
  {
    hide ScanElements;
    AtLast(text, i, [LEFT_BRACKET] + space, RIGHT_BRACKET);
    AtFirst(text, i, LEFT_BRACKET, space);
    SkipExact(text, i + 1, space);
  }

  lemma EmptyObjectComplete(text: Text, i: nat, depth: nat, limit: nat, path: seq<Text>, space: Space)
    requires At(text, i, [LEFT_BRACE] + space + [RIGHT_BRACE]) && depth < limit
    ensures i < |text| && text[i] == LEFT_BRACE
    ensures ScanObject(text, i, depth, limit, path) == Scanned(EmptyObject(space), i + |space| + 2)
  {
    hide ScanFields;
    AtLast(text, i, [LEFT_BRACE] + space, RIGHT_BRACE);
    AtFirst(text, i, LEFT_BRACE, space);
    SkipExact(text, i + 1, space);
  }

  /** Space, then something that is no space: skipping stops at it. */
  lemma Opens(text: Text, i: nat, space: Space, body: Text)
    requires At(text, i, space) && At(text, i + |space|, body) && |body| > 0 && !IsSpace(body[0])
    ensures SkipSpace(text, i) == i + |space| < |text| && text[i + |space|] == body[0]
  {
    assert text[i + |space|] == text[i + |space|..i + |space| + |body|][0];
    SkipExact(text, i, space);
  }

  lemma FirstSlotText(elements: Elements) returns (rest: Text)
    ensures ElementsText(elements) == SlotText(elements.slot) + rest
  {
    hide SlotText;
    rest := if elements.LastSlot? then [RIGHT_BRACKET] else [COMMA] + ElementsText(elements.more);
  }

  lemma FirstFieldText(fields: Fields) returns (rest: Text)
    ensures FieldsText(fields) == FieldText(fields.field) + rest
  {
    hide FieldText;
    rest := if fields.LastField? then [RIGHT_BRACE] else [COMMA] + FieldsText(fields.rest);
  }

  /** A non-empty array does not look like an empty one. */
  lemma FirstSlotOpens(text: Text, i: nat, elements: Elements)
    requires At(text, i, ElementsText(elements))
    ensures
      var j := SkipSpace(text, i);
      j < |text| && text[j] != RIGHT_BRACKET
  {
    hide At, ElementsText, SlotText, ValueText;
    var rest := FirstSlotText(elements);
    var slot := elements.slot;
    AtSplit(text, i, SlotText(slot), rest);
    SlotSeams(slot);
    AtSplit(text, i, slot.before, ValueText(slot.value) + slot.after);
    AtSplit(text, i + |slot.before|, ValueText(slot.value), slot.after);
    ValueStart(slot.value);
    Opens(text, i, slot.before, ValueText(slot.value));
  }

  lemma FirstFieldOpens(text: Text, i: nat, fields: Fields)
    requires At(text, i, FieldsText(fields))
    ensures
      var j := SkipSpace(text, i);
      j < |text| && text[j] != RIGHT_BRACE
  {
    hide At, FieldsText, FieldText, QuotedText, ValueText;
    var rest := FirstFieldText(fields);
    var field := fields.field;
    AtSplit(text, i, FieldText(field), rest);
    FieldPieces(text, i, field);
    QuoteStart(field.name);
    Opens(text, i, field.before, QuotedText(field.name));
  }

  lemma QuoteStart(items: seq<Item>)
    ensures |QuotedText(items)| > 0 && QuotedText(items)[0] == QUOTE
  {
  }

  lemma Bracketed(a: Text, b: Text, c: Text, d: Text, e: Text, f: Text, g: Text)
    ensures a + b + c + d + e + f + g == a + (b + (c + (d + (e + (f + g)))))
  {
  }

  lemma SevenAt(text: Text, i: nat, a: Text, b: Text, c: Text, u: CodeUnit, e: Text, f: Text, g: Text)
    requires At(text, i, a + b + c + [u] + e + f + g)
    ensures At(text, i, a) && At(text, i + |a|, b) && At(text, i + |a + b|, c)
    ensures i + |a + b + c| < |text| && text[i + |a + b + c|] == u
    ensures At(text, i + |a + b + c| + 1, e) && At(text, i + |a + b + c| + 1 + |e|, f)
    ensures At(text, i + |a + b + c| + 1 + |e + f|, g)
  {
    hide At;
    Bracketed(a, b, c, [u], e, f, g);
    AtSplit(text, i, a, b + (c + ([u] + (e + (f + g)))));
    AtSplit(text, i + |a|, b, c + ([u] + (e + (f + g))));
    AtSplit(text, i + |a + b|, c, [u] + (e + (f + g)));
    AtFirst(text, i + |a + b + c|, u, e + (f + g));
    AtSplit(text, i + |a + b + c| + 1, e, f + g);
    AtSplit(text, i + |a + b + c| + 1 + |e|, f, g);
  }

  /** Where the pieces of a field lie. */
  lemma FieldPieces(text: Text, i: nat, field: Field)
    requires At(text, i, FieldText(field))
    ensures
      var j := i + |field.before|;
      var k := j + |QuotedText(field.name)|;
      var l := k + |field.gap|;
      var m := l + 1 + |field.lead|;
      var n := m + |ValueText(field.value)|;
      && At(text, i, field.before) && At(text, j, QuotedText(field.name)) && At(text, k, field.gap)
      && l < |text| && text[l] == COLON
      && At(text, l + 1, field.lead) && At(text, m, ValueText(field.value)) && At(text, n, field.after)
      && n + |field.after| == i + |FieldText(field)|
  {
    hide At, ValueText, QuotedText;
    SevenAt(text, i, field.before, QuotedText(field.name), field.gap, COLON, field.lead, ValueText(field.value),
      field.after);
  }

  lemma SlotSeams(slot: Slot)
    ensures SlotText(slot) == slot.before + (ValueText(slot.value) + slot.after)
  {
    hide ValueText;
  }

  lemma {:induction false} FieldsComplete(
    text: Text, i: nat, depth: nat, limit: nat, path: seq<Text>, seen: set<Text>, fields: Fields)
    requires At(text, i, FieldsText(fields))
    requires FieldsUnambiguous(fields) && Names(fields) !! seen && depth + 1 + FieldsDepth(fields) <= limit
    ensures ScanFields(text, i, depth, limit, path, seen) == Scanned(fields, i + |FieldsText(fields)|)
    decreases fields, 0
  {
    hide At, ScanField, FieldText, Decoded;
    var field := fields.field;
    match fields
    case LastField(_) =>
      AtLast(text, i, FieldText(field), RIGHT_BRACE);
      FieldComplete(text, i, depth, limit, path, seen, field);
    case NextField(_, rest) =>
      assert FieldsText(fields) == FieldText(field) + ([COMMA] + FieldsText(rest));
      AtSplit(text, i, FieldText(field), [COMMA] + FieldsText(rest));
      AtFirst(text, i + |FieldText(field)|, COMMA, FieldsText(rest));
      FieldComplete(text, i, depth, limit, path, seen, field);
      FieldsComplete(text, i + |FieldText(field)| + 1, depth, limit, path, seen + {Decoded(field.name)}, rest);
  }

  lemma {:induction false} FieldComplete(
    text: Text, i: nat, depth: nat, limit: nat, path: seq<Text>, seen: set<Text>, field: Field)
    requires At(text, i, FieldText(field)) && Separates(text, i + |FieldText(field)|, RIGHT_BRACE)
    requires Unambiguous(field.value) && Decoded(field.name) !in seen && depth + 1 + Depth(field.value) <= limit
    ensures ScanField(text, i, depth, limit, path, seen) == Scanned(field, i + |FieldText(field)|)
    decreases field, 0
  {
    hide *;
    var j := i + |field.before|;
    var k := j + |QuotedText(field.name)|;
    var l := k + |field.gap|;
    var m := l + 1 + |field.lead|;
    FieldPieces(text, i, field);
    StringComplete(text, j, field.name, path);
    AfterEnds(text, m + |ValueText(field.value)|, field.value, field.after, RIGHT_BRACE);
    ValueComplete(text, m, depth + 1, limit, path + [Decoded(field.name)], field.value);
    FieldTakes(text, i, depth, limit, path, seen, field, j, k, l, m, m + |ValueText(field.value)|);
  }

  /** Space, then a separator: that ends the value before it, and the space. */
  lemma AfterEnds(text: Text, n: nat, v: Value, after: Space, close: CodeUnit)
    requires At(text, n, after) && Separates(text, n + |after|, close)
    requires close == RIGHT_BRACE || close == RIGHT_BRACKET
    ensures Ends(text, v, n) && SkipSpace(text, n) == n + |after|
  {
    SkipExact(text, n, after);
    if |after| > 0 {
      assert text[n] == after[0];
    }
  }

  /** One field, once its pieces are known to be read where they lie. */
  lemma FieldTakes(
    text: Text, i: nat, depth: nat, limit: nat, path: seq<Text>, seen: set<Text>, field: Field,
    j: nat, k: nat, l: nat, m: nat, n: nat)
    requires j == i + |field.before| && l == k + |field.gap| && m == l + 1 + |field.lead|
    requires At(text, i, field.before) && At(text, j, QuotedText(field.name))
    requires At(text, k, field.gap) && At(text, l + 1, field.lead)
    requires At(text, m, ValueText(field.value)) && At(text, n, field.after)
    requires Decoded(field.name) !in seen
    requires ScanString(text, j, path) == Scanned(field.name, k)
    requires l < |text| && text[l] == COLON
    requires ScanValue(text, m, depth + 1, limit, path + [Decoded(field.name)]) == Scanned(field.value, n)
    requires SkipSpace(text, n) == n + |field.after|
    ensures ScanField(text, i, depth, limit, path, seen) == Scanned(field, n + |field.after|)
  {
    hide ScanString, ScanValue, SkipSpace, Decoded, QuotedText, ValueText, At;
    FieldSkips(text, i, field, j, k, l, m);
    AtSlice(text, i, j, field.before);
    AtSlice(text, k, l, field.gap);
    AtSlice(text, l + 1, m, field.lead);
    AtSlice(text, n, n + |field.after|, field.after);
  }

  lemma FieldSkips(text: Text, i: nat, field: Field, j: nat, k: nat, l: nat, m: nat)
    requires j == i + |field.before| && l == k + |field.gap| && m == l + 1 + |field.lead|
    requires At(text, i, field.before) && At(text, j, QuotedText(field.name))
    requires At(text, k, field.gap) && At(text, l + 1, field.lead)
    requires At(text, m, ValueText(field.value))
    requires l < |text| && text[l] == COLON
    ensures SkipSpace(text, i) == j && SkipSpace(text, k) == l && SkipSpace(text, l + 1) == m
  {
    hide At, SkipSpace, QuotedText, ValueText;
    QuoteStart(field.name);
    Opens(text, i, field.before, QuotedText(field.name));
    SkipExact(text, k, field.gap);
    ValueStart(field.value);
    Opens(text, l + 1, field.lead, ValueText(field.value));
  }

  lemma {:induction false} ElementsComplete(
    text: Text, i: nat, depth: nat, limit: nat, path: seq<Text>, element: nat, elements: Elements)
    requires At(text, i, ElementsText(elements))
    requires ElementsUnambiguous(elements) && depth + 1 + ElementsDepth(elements) <= limit
    ensures ScanElements(text, i, depth, limit, path, element) == Scanned(elements, i + |ElementsText(elements)|)
    decreases elements, 1
  {
    hide At, ScanElements, SlotText, SlotRead;
    var slot := elements.slot;
    match elements
    case LastSlot(_) =>
      AtLast(text, i, SlotText(slot), RIGHT_BRACKET);
      SlotComplete(text, i, depth, limit, path, element, slot);
      LastSlotTakes(text, i, depth, limit, path, element, slot);
    case NextSlot(_, more) =>
      assert ElementsText(elements) == SlotText(slot) + ([COMMA] + ElementsText(more));
      AtSplit(text, i, SlotText(slot), [COMMA] + ElementsText(more));
      AtFirst(text, i + |SlotText(slot)|, COMMA, ElementsText(more));
      SlotComplete(text, i, depth, limit, path, element, slot);
      ElementsComplete(text, i + |SlotText(slot)| + 1, depth, limit, path, element + 1, more);
      NextSlotTakes(text, i, depth, limit, path, element, slot, more);
  }

  /** A slot is read where it lies. */
  ghost predicate SlotRead(text: Text, i: nat, depth: nat, limit: nat, path: seq<Text>, element: nat, slot: Slot) {
    && i + |SlotText(slot)| <= |text|
    && var j, o := SkipSpace(text, i), i + |SlotText(slot)|;
    && text[i..j] == slot.before
    && ScanValue(text, j, depth + 1, limit, path + [Decimal(element)]).Scanned?
    && var Scanned(value, n) := ScanValue(text, j, depth + 1, limit, path + [Decimal(element)]);
    && value == slot.value
    && SkipSpace(text, n) == o
    && text[n..o] == slot.after
  }

  lemma {:induction false} SlotComplete(
    text: Text, i: nat, depth: nat, limit: nat, path: seq<Text>, element: nat, slot: Slot)
    requires At(text, i, SlotText(slot)) && Separates(text, i + |SlotText(slot)|, RIGHT_BRACKET)
    requires Unambiguous(slot.value) && depth + 1 + Depth(slot.value) <= limit
    ensures SlotRead(text, i, depth, limit, path, element, slot)
    decreases slot, 0
  {
    hide *;
    var j := i + |slot.before|;
    var n := j + |ValueText(slot.value)|;
    SlotPieces(text, i, slot);
    AfterEnds(text, n, slot.value, slot.after, RIGHT_BRACKET);
    ValueComplete(text, j, depth + 1, limit, path + [Decimal(element)], slot.value);
    SlotTakes(text, i, depth, limit, path, element, slot, j, n);
  }

  lemma SlotTakes(
    text: Text, i: nat, depth: nat, limit: nat, path: seq<Text>, element: nat, slot: Slot, j: nat, n: nat)
    requires j == i + |slot.before| && n == j + |ValueText(slot.value)|
    requires At(text, i, slot.before) && At(text, j, ValueText(slot.value)) && At(text, n, slot.after)
    requires n + |slot.after| == i + |SlotText(slot)|
    requires ScanValue(text, j, depth + 1, limit, path + [Decimal(element)]) == Scanned(slot.value, n)
    requires SkipSpace(text, n) == n + |slot.after|
    ensures SlotRead(text, i, depth, limit, path, element, slot)
  {
    hide ScanValue, SkipSpace, SlotText, ValueText, Decimal;
    ValueStart(slot.value);
    Opens(text, i, slot.before, ValueText(slot.value));
  }

  /** What one element read makes of the elements from there on. */
  lemma SlotThenRest(text: Text, i: nat, depth: nat, limit: nat, path: seq<Text>, element: nat, slot: Slot)
    requires SlotRead(text, i, depth, limit, path, element, slot)
    ensures
      var o := i + |SlotText(slot)|;
      ScanElements(text, i, depth, limit, path, element) ==
        if o < |text| && text[o] == COMMA then
          match ScanElements(text, o + 1, depth, limit, path, element + 1)
          case Failed(code, at) => Failed(code, at)
          case Scanned(more, next) => Scanned(NextSlot(slot, more), next)
        else if o < |text| && text[o] == RIGHT_BRACKET then Scanned(LastSlot(slot), o + 1)
        else Failed(ScanIncomplete, path)
  {
    hide ScanValue, SkipSpace, SlotText, Decimal;
  }

  lemma LastSlotTakes(text: Text, i: nat, depth: nat, limit: nat, path: seq<Text>, element: nat, slot: Slot)
    requires SlotRead(text, i, depth, limit, path, element, slot)
    requires
      var o := i + |SlotText(slot)|;
      o < |text| && text[o] == RIGHT_BRACKET
    ensures ScanElements(text, i, depth, limit, path, element) == Scanned(LastSlot(slot), i + |SlotText(slot)| + 1)
  {
    hide ScanElements, SlotRead, SlotText, Decimal;
    SlotThenRest(text, i, depth, limit, path, element, slot);
  }

  lemma NextSlotTakes(
    text: Text, i: nat, depth: nat, limit: nat, path: seq<Text>, element: nat, slot: Slot, more: Elements)
    requires SlotRead(text, i, depth, limit, path, element, slot)
    requires
      var o := i + |SlotText(slot)|;
      && o < |text| && text[o] == COMMA
      && ScanElements(text, o + 1, depth, limit, path, element + 1) == Scanned(more, o + 1 + |ElementsText(more)|)
    ensures ScanElements(text, i, depth, limit, path, element) ==
      Scanned(NextSlot(slot, more), i + |SlotText(slot)| + 1 + |ElementsText(more)|)
  {
    hide ScanElements, SlotText, Decimal, ElementsText;
    SlotThenRest(text, i, depth, limit, path, element, slot);
    hide SlotRead;
  }

  lemma SlotPieces(text: Text, i: nat, slot: Slot)
    requires At(text, i, SlotText(slot))
    ensures
      var j := i + |slot.before|;
      var n := j + |ValueText(slot.value)|;
      && At(text, i, slot.before) && At(text, j, ValueText(slot.value)) && At(text, n, slot.after)
      && n + |slot.after| == i + |SlotText(slot)|
  {
    hide At, ValueText;
    SlotSeams(slot);
    AtSplit(text, i, slot.before, ValueText(slot.value) + slot.after);
    AtSplit(text, i + |slot.before|, ValueText(slot.value), slot.after);
  }

  // ---------------------------------------------------------------- whole texts

  /** The text is this value with space around it. */
  predicate Reads(text: Text, before: Space, v: Value, after: Space) {
    text == before + ValueText(v) + after
  }

  /** A text the rules admit: one value of the grammar, containers at most `limit` deep, and no object at
      any depth with two members of the same decoded name. */
  ghost predicate Admissible(text: Text, limit: nat) {
    exists before: Space, v: Value, after: Space ::
      Reads(text, before, v, after) && Depth(v) <= limit && Unambiguous(v)
  }

  lemma ReadsScanned(text: Text, limit: nat, before: Space, v: Value, after: Space)
    requires Reads(text, before, v, after) && Depth(v) <= limit && Unambiguous(v)
    ensures ScanText(text, limit) == Scanned(v, |text|)
  {
    hide At, ScanValue, ValueText;
    var n := |before| + |ValueText(v)|;
    ReadsPieces(text, before, v, after);
    ValueStart(v);
    Opens(text, 0, before, ValueText(v));
    WholeEnds(text, n, v, after);
    ValueComplete(text, |before|, 0, limit, [], v);
  }

  lemma ReadsPieces(text: Text, before: Space, v: Value, after: Space)
    requires Reads(text, before, v, after)
    ensures At(text, 0, before) && At(text, |before|, ValueText(v)) && At(text, |before| + |ValueText(v)|, after)
    ensures |before| + |ValueText(v)| + |after| == |text|
  {
    hide ValueText;
    var tail := ValueText(v) + after;
    assert text == before + tail;
    assert At(text, 0, before + tail);
    AtSplit(text, 0, before, tail);
    AtSplit(text, |before|, ValueText(v), after);
  }

  lemma WholeEnds(text: Text, n: nat, v: Value, after: Space)
    requires At(text, n, after) && n + |after| == |text|
    ensures Ends(text, v, n) && SkipSpace(text, n) == |text|
  {
    SkipExact(text, n, after);
    if |after| > 0 {
      assert text[n] == after[0];
    }
  }

  lemma ScannedReads(text: Text, limit: nat) returns (before: Space, v: Value, after: Space)
    requires ScanText(text, limit).Scanned?
    ensures Reads(text, before, v, after) && Depth(v) <= limit && Unambiguous(v)
    ensures ScanText(text, limit).value == v
  {
    hide ScanValue;
    var j := SkipSpace(text, 0);
    ScanSoundness.ValueSound(text, j, 0, limit, []);
    var Scanned(value, n) := ScanValue(text, j, 0, limit, []);
    assert text[n..SkipSpace(text, n)] == text[n..];
    before, v, after := text[0..j], value, text[n..];
    assert text == text[0..j] + text[j..n] + text[n..];
  }

  /** The scanner accepts a text exactly when the rules admit it. */
  lemma ScanIsExact(text: Text, limit: nat)
    ensures ScanText(text, limit).Scanned? <==> Admissible(text, limit)
  {
    if ScanText(text, limit).Scanned? {
      var before, v, after := ScannedReads(text, limit);
    }
    if Admissible(text, limit) {
      var before: Space, v: Value, after: Space :|
        Reads(text, before, v, after) && Depth(v) <= limit && Unambiguous(v);
      ReadsScanned(text, limit, before, v, after);
    }
  }

  /** No text has two readings: two unambiguous values that print alike are the same value. */
  lemma OneReading(v: Value, w: Value)
    requires Unambiguous(v) && Unambiguous(w) && ValueText(v) == ValueText(w)
    ensures v == w
  {
    var limit := Max(Depth(v), Depth(w));
    var text := ValueText(v);
    assert text == [] + ValueText(v) + [] == [] + ValueText(w) + [];
    ReadsScanned(text, limit, [], v, []);
    ReadsScanned(text, limit, [], w, []);
  }
}
