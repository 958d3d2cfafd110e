/** What the scanner computes, as functions on the text and a position. They follow the scanner branch
    by branch, and also return the tree they recognised, which the scanner itself never builds. */
module Scanning {
  import opened Wrappers
  import opened CodeUnits
  import opened Numerals
  import opened Grammar

  datatype Code = DuplicateMember | DepthLimitExceeded | ScanIncomplete

  datatype Scan<+T> = Scanned(value: T, next: nat) | Failed(code: Code, path: seq<Text>)

  const MAX_DEPTH: nat := 32

  function SkipSpace(text: Text, i: nat): (next: nat)
    requires i <= |text|
    ensures i <= next <= |text|
    ensures AllSpace(text[i..next])
    ensures next < |text| ==> !IsSpace(text[next])
    decreases |text| - i
  {
    if i < |text| && IsSpace(text[i]) then
      var next := SkipSpace(text, i + 1);
      assert text[i..next] == [text[i]] + text[i + 1..next];
      next
    else i
  }

  function SkipBare(text: Text, i: nat): (next: nat)
    requires i <= |text|
    ensures i <= next <= |text|
    ensures AllBare(text[i..next])
    ensures next < |text| ==> !IsBare(text[next])
    decreases |text| - i
  {
    if i < |text| && IsBare(text[i]) then
      var next := SkipBare(text, i + 1);
      assert text[i..next] == [text[i]] + text[i + 1..next];
      next
    else i
  }

  /** The element at `i` inside a string, and how many units it takes; undefined when there is none. */
  function ScanItem(text: Text, i: nat): (r: Option<Item>)
    requires i < |text|
    ensures r.Some? ==> i + |ItemText(r.value)| <= |text|
  {
    var ch := text[i];
    if ch != BACKSLASH then
      if ch < 0x20 || ch == QUOTE then None else Some(Plain(ch))
    else if i + 1 >= |text| then None
    else if IsShort(text[i + 1]) then Some(Short(text[i + 1]))
    else if text[i + 1] == LETTER_U && i + 6 <= |text| && AllHex(text[i + 2..i + 6]) then Some(Hex(text[i + 2..i + 6]))
    else None
  }

  /** The rest of a string, from after the opening quote to after the closing one. */
  function ScanChars(text: Text, i: nat): (r: Option<(seq<Item>, nat)>)
    requires i <= |text|
    ensures r.Some? ==> i < r.value.1 <= |text|
    decreases |text| - i
  {
    if i >= |text| then None
    else if text[i] == QUOTE then Some(([], i + 1))
    else
      match ScanItem(text, i)
      case None => None
      case Some(item) =>
        match ScanChars(text, i + |ItemText(item)|)
        case None => None
        case Some((items, next)) => Some(([item] + items, next))
  }

  function ScanString(text: Text, i: nat, path: seq<Text>): (r: Scan<seq<Item>>)
    requires i <= |text|
    ensures r.Scanned? ==> i < r.next <= |text|
  {
    if i >= |text| || text[i] != QUOTE then Failed(ScanIncomplete, path)
    else
      match ScanChars(text, i + 1)
      case None => Failed(ScanIncomplete, path)
      case Some((items, next)) => Scanned(items, next)
  }

  function ScanValue(text: Text, i: nat, depth: nat, limit: nat, path: seq<Text>): (r: Scan<Value>)
    requires i <= |text|
    ensures r.Scanned? ==> i < r.next <= |text|
    decreases |text| - i, 2
  {
    if depth > limit then Failed(DepthLimitExceeded, path)
    else if i >= |text| then Failed(ScanIncomplete, path)
    else if text[i] == LEFT_BRACE then ScanObject(text, i, depth, limit, path)
    else if text[i] == LEFT_BRACKET then ScanArray(text, i, depth, limit, path)
    else if text[i] == QUOTE then
      match ScanString(text, i, path)
      case Failed(code, at) => Failed(code, at)
      case Scanned(items, next) => Scanned(Quoted(items), next)
    else
      var next := SkipBare(text, i);
      if next == i then Failed(ScanIncomplete, path) else Scanned(Bare(text[i..next]), next)
  }

  function ScanObject(text: Text, i: nat, depth: nat, limit: nat, path: seq<Text>): (r: Scan<Value>)
    requires i < |text| && text[i] == LEFT_BRACE
    ensures r.Scanned? ==> i < r.next <= |text|
    decreases |text| - i, 1
  {
    if depth >= limit then Failed(DepthLimitExceeded, path)
    else
      var j := SkipSpace(text, i + 1);
      if j < |text| && text[j] == RIGHT_BRACE then Scanned(EmptyObject(text[i + 1..j]), j + 1)
      else
        match ScanFields(text, i + 1, depth, limit, path, {})
        case Failed(code, at) => Failed(code, at)
        case Scanned(fields, next) => Scanned(Object(fields), next)
  }

  /** The fields of an object, given the names its earlier fields had. */
  function ScanFields(text: Text, i: nat, depth: nat, limit: nat, path: seq<Text>, seen: set<Text>): (r: Scan<Fields>)
    requires i <= |text|
    ensures r.Scanned? ==> i < r.next <= |text|
    decreases |text| - i, 3
  {
    match ScanField(text, i, depth, limit, path, seen)
    case Failed(code, at) => Failed(code, at)
    case Scanned(field, n) =>
      if n < |text| && text[n] == COMMA then
        match ScanFields(text, n + 1, depth, limit, path, seen + {Decoded(field.name)})
        case Failed(code, at) => Failed(code, at)
        case Scanned(rest, next) => Scanned(NextField(field, rest), next)
      else if n < |text| && text[n] == RIGHT_BRACE then Scanned(LastField(field), n + 1)
      else Failed(ScanIncomplete, path)
  }

  /** One field, with the space around it. */
  function ScanField(text: Text, i: nat, depth: nat, limit: nat, path: seq<Text>, seen: set<Text>): (r: Scan<Field>)
    requires i <= |text|
    ensures r.Scanned? ==> i < r.next <= |text|
    decreases |text| - i, 2
  {
    var j := SkipSpace(text, i);
    match ScanString(text, j, path)
    case Failed(code, at) => Failed(code, at)
    case Scanned(items, k) =>
      var name := Decoded(items);
      var inside := path + [name];
      if name in seen then Failed(DuplicateMember, inside)
      else
        var l := SkipSpace(text, k);
        if l >= |text| || text[l] != COLON then Failed(ScanIncomplete, inside)
        else
          var m := SkipSpace(text, l + 1);
          match ScanValue(text, m, depth + 1, limit, inside)
          case Failed(code, at) => Failed(code, at)
          case Scanned(value, n) =>
            var o := SkipSpace(text, n);
            Scanned(Field(text[i..j], items, text[k..l], text[l + 1..m], value, text[n..o]), o)
  }

  function ScanArray(text: Text, i: nat, depth: nat, limit: nat, path: seq<Text>): (r: Scan<Value>)
    requires i < |text| && text[i] == LEFT_BRACKET
    ensures r.Scanned? ==> i < r.next <= |text|
    decreases |text| - i, 1
  {
    if depth >= limit then Failed(DepthLimitExceeded, path)
    else
      var j := SkipSpace(text, i + 1);
      if j < |text| && text[j] == RIGHT_BRACKET then Scanned(EmptyArray(text[i + 1..j]), j + 1)
      else
        match ScanElements(text, i + 1, depth, limit, path, 0)
        case Failed(code, at) => Failed(code, at)
        case Scanned(elements, next) => Scanned(Array(elements), next)
  }

  function ScanElements(text: Text, i: nat, depth: nat, limit: nat, path: seq<Text>, element: nat): (r: Scan<Elements>)
    requires i <= |text|
    ensures r.Scanned? ==> i < r.next <= |text|
    decreases |text| - i, 3
  {
    var j := SkipSpace(text, i);
    match ScanValue(text, j, depth + 1, limit, path + [Decimal(element)])
    case Failed(code, at) => Failed(code, at)
    case Scanned(value, n) =>
      var o := SkipSpace(text, n);
      var slot := Slot(text[i..j], value, text[n..o]);
      if o < |text| && text[o] == COMMA then
        match ScanElements(text, o + 1, depth, limit, path, element + 1)
        case Failed(code, at) => Failed(code, at)
        case Scanned(more, next) => Scanned(NextSlot(slot, more), next)
      else if o < |text| && text[o] == RIGHT_BRACKET then Scanned(LastSlot(slot), o + 1)
      else Failed(ScanIncomplete, path)
  }

  /** A whole text: one value with space around it and nothing else. */
  function ScanText(text: Text, limit: nat): Scan<Value> {
    match ScanValue(text, SkipSpace(text, 0), 0, limit, [])
    case Failed(code, at) => Failed(code, at)
    case Scanned(value, n) =>
      var o := SkipSpace(text, n);
      if o == |text| then Scanned(value, o) else Failed(ScanIncomplete, [])
  }
}
