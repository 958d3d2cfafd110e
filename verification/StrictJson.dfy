/** The duplicate-member scanner of src/strict-json.ts: a cursor and a path, updated in place. */
module StrictJson {
  import opened Wrappers
  import opened CodeUnits
  import opened Json
  import opened Numerals
  import opened Grammar
  import opened Scanning
  import opened ScanCompleteness
  import opened ScanBlame

  /** A failure as it is thrown; none when the scan goes on. */
  datatype Failure = Failure(code: Code, path: seq<Text>)

  datatype DuplicateScanResult = Accepted | Rejected(code: Code, path: seq<Text>)

  /** A scan without the tree it recognised: all that the scanner keeps. */
  function Erased<T>(r: Scan<T>): Scan<()> {
    match r
    case Failed(code, at) => Failed(code, at)
    case Scanned(_, next) => Scanned((), next)
  }

  function Thrown<T>(r: Scan<T>): Option<Failure> {
    match r
    case Failed(code, at) => Some(Failure(code, at))
    case Scanned(_, _) => None
  }

  lemma FourHexIsHexValue(digits: Text)
    requires |digits| == 4 && AllHex(digits)
    ensures FourHex(digits) == HexValue(digits)
  {
    assert digits[..3][..2] == digits[..2] && digits[..2][..1] == digits[..1] && digits[..1][..0] == [];
    assert HexValue(digits[..1]) == HexDigitValue(digits[0]);
    assert HexValue(digits[..2]) == 16 * HexValue(digits[..1]) + HexDigitValue(digits[1]);
    assert HexValue(digits[..3]) == 16 * HexValue(digits[..2]) + HexDigitValue(digits[2]);
  }

  /** Reading the rest of a string from `i` with `out` decoded so far is reading it from `start`. */
  ghost predicate Continues(text: Text, start: nat, i: nat, out: Text) {
    && start <= i <= |text|
    && match ScanChars(text, i)
       case None => ScanChars(text, start).None?
       case Some((items, next)) =>
         && ScanChars(text, start).Some?
         && ScanChars(text, start).value.1 == next
         && Decoded(ScanChars(text, start).value.0) == out + Decoded(items)
  }

  lemma StartsFresh(text: Text, start: nat)
    requires start <= |text|
    ensures Continues(text, start, start, [])
  {
    if ScanChars(text, start).Some? {
      var items := ScanChars(text, start).value.0;
      assert [] + Decoded(items) == Decoded(items);
    }
  }

  /** What one more element does to a string being read. */
  lemma ContinuesAt(text: Text, start: nat, i: nat, out: Text)
    requires Continues(text, start, i, out)
    ensures i <= |text|
    ensures i == |text| ==> ScanChars(text, start).None?
    ensures i < |text| && text[i] == QUOTE ==>
      ScanChars(text, start).Some? && ScanChars(text, start).value.1 == i + 1
      && Decoded(ScanChars(text, start).value.0) == out
    ensures i < |text| && text[i] != QUOTE && ScanItem(text, i).None? ==> ScanChars(text, start).None?
    ensures i < |text| && text[i] != QUOTE && ScanItem(text, i).Some? ==>
      var item := ScanItem(text, i).value;
      Continues(text, start, i + |ItemText(item)|, out + [ItemUnit(item)])
  {
    hide ScanItem, ItemText, ItemUnit;
    if i < |text| && text[i] == QUOTE {
      assert out + [] == out;
    } else if i < |text| && ScanItem(text, i).Some? {
      var item := ScanItem(text, i).value;
      var j := i + |ItemText(item)|;
      if ScanChars(text, j).Some? {
        var (rest, _) := ScanChars(text, j).value;
        assert ([item] + rest)[1..] == rest;
        assert out + [ItemUnit(item)] + Decoded(rest) == out + ([ItemUnit(item)] + Decoded(rest));
      }
    }
  }

  class Scanner {
    const text: Text
    var index: nat
    var path: seq<Text>

    constructor (text: Text)
      ensures this.text == text && index == 0 && path == []
    {
      this.text := text;
      index := 0;
      path := [];
    }

    method SkipWhitespace()
      requires index <= |text|
      modifies this`index
      ensures index == SkipSpace(text, old(index))
    {
      while index < |text| && IsSpace(text[index])
        invariant old(index) <= index <= |text|
        invariant SkipSpace(text, index) == SkipSpace(text, old(index))
      {
        index := index + 1;
      }
    }

    /** Consumes a string and returns its decoded value. */
    method TakeString() returns (failure: Option<Failure>, name: Text)
      requires index <= |text|
      modifies this`index
      ensures old(index) <= index <= |text|
      ensures failure == Thrown(ScanString(text, old(index), path))
      ensures failure.None? ==>
        var Scanned(items, next) := ScanString(text, old(index), path);
        index == next && name == Decoded(items)
    {
      name := [];
      if index >= |text| || text[index] != QUOTE {
        return Some(Failure(ScanIncomplete, path)), name;
      }
      index := index + 1;
      ghost var start := index;
      var out: Text := [];
      assert Continues(text, start, index, out) by {
        StartsFresh(text, start);
      }
      while true
        invariant Continues(text, start, index, out)
        decreases |text| - index
      {
        hide ScanItem, Continues;
        ContinuesAt(text, start, index, out);
        if index >= |text| {
          return Some(Failure(ScanIncomplete, path)), name;
        }
        if text[index] == QUOTE {
          index := index + 1;
          return None, out;
        }
        var unit;
        failure, unit := TakeUnit();
        if failure.Some? {
          return;
        }
        out := out + [unit];
      }
    }

    /** Consumes one element of a string, escaped or not, and returns the code unit it stands for. */
    method TakeUnit() returns (failure: Option<Failure>, unit: CodeUnit)
      requires index < |text| && text[index] != QUOTE
      modifies this`index
      ensures old(index) <= index <= |text|
      ensures failure ==
        if ScanItem(text, old(index)).None? then Some(Failure(ScanIncomplete, path)) else None
      ensures failure.None? ==>
        var item := ScanItem(text, old(index)).value;
        unit == ItemUnit(item) && index == old(index) + |ItemText(item)|
    {
      var ch := text[index];
      unit := ch;
      index := index + 1;
      if ch != BACKSLASH {
        return if ch < 0x20 then Some(Failure(ScanIncomplete, path)) else None, ch;
      }
      if index >= |text| {
        return Some(Failure(ScanIncomplete, path)), unit;
      }
      var esc := text[index];
      index := index + 1;
      if esc == QUOTE || esc == BACKSLASH || esc == SLASH {
        unit := esc;
      } else if esc == 0x62 {
        unit := 0x08;
      } else if esc == 0x66 {
        unit := 0x0C;
      } else if esc == 0x6E {
        unit := 0x0A;
      } else if esc == 0x72 {
        unit := 0x0D;
      } else if esc == 0x74 {
        unit := 0x09;
      } else if esc == LETTER_U {
        if index + 4 > |text| || !AllHex(text[index..index + 4]) {
          return Some(Failure(ScanIncomplete, path)), unit;
        }
        var hex := text[index..index + 4];
        FourHexIsHexValue(hex);
        index := index + 4;
        unit := HexValue(hex);
      } else {
        return Some(Failure(ScanIncomplete, path)), unit;
      }
      failure := None;
    }

    method TakeValue(depth: nat) returns (failure: Option<Failure>)
      requires index <= |text|
      modifies this
      ensures old(index) <= index <= |text|
      ensures failure == Thrown(ScanValue(text, old(index), depth, MAX_DEPTH, old(path)))
      ensures failure.None? ==> path == old(path)
      ensures failure.None? ==> index == ScanValue(text, old(index), depth, MAX_DEPTH, old(path)).next
      decreases |text| - index, 2
    {
      if depth > MAX_DEPTH {
        return Some(Failure(DepthLimitExceeded, path));
      }
      if index >= |text| {
        return Some(Failure(ScanIncomplete, path));
      }
      if text[index] == LEFT_BRACE {
        failure := TakeObject(depth);
        return;
      }
      if text[index] == LEFT_BRACKET {
        failure := TakeArray(depth);
        return;
      }
      if text[index] == QUOTE {
        var ignored;
        failure, ignored := TakeString();
        return;
      }
      var consumed := 0;
      while index < |text| && IsBare(text[index])
        invariant old(index) <= index <= |text| && consumed == index - old(index)
        invariant SkipBare(text, index) == SkipBare(text, old(index))
        invariant path == old(path)
      {
        index := index + 1;
        consumed := consumed + 1;
      }
      if consumed == 0 {
        return Some(Failure(ScanIncomplete, path));
      }
      return None;
    }

    method TakeObject(depth: nat) returns (failure: Option<Failure>)
      requires index < |text| && text[index] == LEFT_BRACE
      modifies this
      ensures old(index) <= index <= |text|
      ensures failure == Thrown(ScanObject(text, old(index), depth, MAX_DEPTH, old(path)))
      ensures failure.None? ==> path == old(path)
      ensures failure.None? ==> index == ScanObject(text, old(index), depth, MAX_DEPTH, old(path)).next
      decreases |text| - index, 1
    {
      hide ScanFields, SkipSpace;
      if depth >= MAX_DEPTH {
        return Some(Failure(DepthLimitExceeded, path));
      }
      index := index + 1;
      ghost var start := index;
      SkipWhitespace();
      if index < |text| && text[index] == RIGHT_BRACE {
        index := index + 1;
        return None;
      }
      FieldsAfterSpace(text, start, depth, path);
      failure := TakeFields(depth);
    }

    /** The loop over an object's fields, up to its closing brace. */
    method TakeFields(depth: nat) returns (failure: Option<Failure>)
      requires index <= |text|
      modifies this
      ensures old(index) <= index <= |text|
      ensures failure == Thrown(ScanFields(text, old(index), depth, MAX_DEPTH, old(path), {}))
      ensures failure.None? ==> path == old(path)
      ensures failure.None? ==> index == ScanFields(text, old(index), depth, MAX_DEPTH, old(path), {}).next
      decreases |text| - index, 4
    {
      hide ScanFields, ScanField, FieldsGoOn, Decoded, Erased;
      var seen: set<Text> := {};
      ghost var start := index;
      ghost var whole := FieldsStart(text, index, depth, path);
      while true
        invariant start <= index <= |text| && path == old(path)
        invariant FieldsGoOn(text, index, depth, path, seen, whole)
        decreases |text| - index
      {
        FieldsStep(text, index, depth, path, seen, whole);
        failure, seen := TakeField(depth, seen);
        if failure.Some? {
          return;
        }
        if index < |text| && text[index] == COMMA {
          index := index + 1;
          continue;
        }
        if index < |text| && text[index] == RIGHT_BRACE {
          index := index + 1;
          return None;
        }
        return Some(Failure(ScanIncomplete, path));
      }
    }

    /** One field, and the space around it: its name joins those seen. */
    method TakeField(depth: nat, names: set<Text>) returns (failure: Option<Failure>, seen: set<Text>)
      requires index <= |text|
      modifies this
      ensures old(index) <= index <= |text|
      ensures failure == Thrown(ScanField(text, old(index), depth, MAX_DEPTH, old(path), names))
      ensures failure.None? ==>
        var Scanned(field, next) := ScanField(text, old(index), depth, MAX_DEPTH, old(path), names);
        path == old(path) && index == next && seen == names + {Decoded(field.name)}
      decreases |text| - index, 2
    {
      hide ScanString, ScanValue, SkipSpace, Decoded;
      seen := names;
      SkipWhitespace();
      var name;
      failure, name := TakeString();
      if failure.Some? {
        return;
      }
      path := path + [name];
      if name in seen {
        return Some(Failure(DuplicateMember, path)), seen;
      }
      seen := seen + {name};
      SkipWhitespace();
      if index >= |text| || text[index] != COLON {
        return Some(Failure(ScanIncomplete, path)), seen;
      }
      index := index + 1;
      SkipWhitespace();
      failure := TakeValue(depth + 1);
      if failure.Some? {
        return;
      }
      path := path[..|path| - 1];
      SkipWhitespace();
    }

    method TakeArray(depth: nat) returns (failure: Option<Failure>)
      requires index < |text| && text[index] == LEFT_BRACKET
      modifies this
      ensures old(index) <= index <= |text|
      ensures failure == Thrown(ScanArray(text, old(index), depth, MAX_DEPTH, old(path)))
      ensures failure.None? ==> path == old(path)
      ensures failure.None? ==> index == ScanArray(text, old(index), depth, MAX_DEPTH, old(path)).next
      decreases |text| - index, 1
    {
      hide ScanElements, SkipSpace;
      if depth >= MAX_DEPTH {
        return Some(Failure(DepthLimitExceeded, path));
      }
      index := index + 1;
      ghost var start := index;
      SkipWhitespace();
      if index < |text| && text[index] == RIGHT_BRACKET {
        index := index + 1;
        return None;
      }
      ElementsAfterSpace(text, start, depth, path);
      failure := TakeElements(depth);
    }

    /** The loop over an array's elements, up to its closing bracket. */
    method TakeElements(depth: nat) returns (failure: Option<Failure>)
      requires index <= |text|
      modifies this
      ensures old(index) <= index <= |text|
      ensures failure == Thrown(ScanElements(text, old(index), depth, MAX_DEPTH, old(path), 0))
      ensures failure.None? ==> path == old(path)
      ensures failure.None? ==> index == ScanElements(text, old(index), depth, MAX_DEPTH, old(path), 0).next
      decreases |text| - index, 4
    {
      hide ScanElements, ScanSlot, ElementsGoOn, Erased;
      var element := 0;
      ghost var start := index;
      ghost var whole := ElementsStart(text, index, depth, path);
      while true
        invariant start <= index <= |text| && path == old(path)
        invariant ElementsGoOn(text, index, depth, path, element, whole)
        decreases |text| - index
      {
        ElementsStep(text, index, depth, path, element, whole);
        failure := TakeSlot(depth, element);
        if failure.Some? {
          return;
        }
        if index < |text| && text[index] == COMMA {
          index := index + 1;
          element := element + 1;
          continue;
        }
        if index < |text| && text[index] == RIGHT_BRACKET {
          index := index + 1;
          return None;
        }
        return Some(Failure(ScanIncomplete, path));
      }
    }

    /** One element, and the space around it. */
    method TakeSlot(depth: nat, element: nat) returns (failure: Option<Failure>)
      requires index <= |text|
      modifies this
      ensures old(index) <= index <= |text|
      ensures failure == Thrown(ScanSlot(text, old(index), depth, old(path), element))
      ensures failure.None? ==>
        path == old(path) && index == ScanSlot(text, old(index), depth, old(path), element).next
      decreases |text| - index, 3
    {
      hide ScanValue, SkipSpace, Decimal;
      SkipWhitespace();
      path := path + [Decimal(element)];
      failure := TakeValue(depth + 1);
      if failure.Some? {
        return;
      }
      path := path[..|path| - 1];
      SkipWhitespace();
    }

    method Run() returns (failure: Option<Failure>)
      requires index == 0 && path == []
      modifies this
      ensures old(index) <= index <= |text|
      ensures failure == Thrown(ScanText(text, MAX_DEPTH))
    {
      SkipWhitespace();
      failure := TakeValue(0);
      if failure.Some? {
        return;
      }
      SkipWhitespace();
      if index != |text| {
        return Some(Failure(ScanIncomplete, path));
      }
    }
  }

  /** One element of an array and the space around it. */
  function ScanSlot(text: Text, i: nat, depth: nat, path: seq<Text>, element: nat): (r: Scan<()>)
    requires i <= |text|
    ensures r.Scanned? ==> i <= r.next <= |text|
  {
    match ScanValue(text, SkipSpace(text, i), depth + 1, MAX_DEPTH, path + [Decimal(element)])
    case Failed(code, at) => Failed(code, at)
    case Scanned(_, next) => Scanned((), SkipSpace(text, next))
  }

  /** Scanning fields from `i` with these names seen comes to `whole`. */
  ghost predicate FieldsGoOn(text: Text, i: nat, depth: nat, path: seq<Text>, seen: set<Text>, whole: Scan<()>) {
    i <= |text| && Erased(ScanFields(text, i, depth, MAX_DEPTH, path, seen)) == whole
  }

  lemma FieldsStart(text: Text, i: nat, depth: nat, path: seq<Text>) returns (whole: Scan<()>)
    requires i <= |text|
    ensures FieldsGoOn(text, i, depth, path, {}, whole)
    ensures
      var fields := ScanFields(text, i, depth, MAX_DEPTH, path, {});
      && Thrown(fields) == Thrown(whole)
      && (Thrown(whole).None? ==> fields.Scanned? && whole.Scanned? && fields.next == whole.next)
  {
    whole := Erased(ScanFields(text, i, depth, MAX_DEPTH, path, {}));
  }

  lemma FieldsStep(text: Text, i: nat, depth: nat, path: seq<Text>, seen: set<Text>, whole: Scan<()>)
    requires FieldsGoOn(text, i, depth, path, seen, whole)
    ensures i <= |text|
    ensures
      match ScanField(text, i, depth, MAX_DEPTH, path, seen)
      case Failed(_, _) => Thrown(whole) == Thrown(ScanField(text, i, depth, MAX_DEPTH, path, seen))
      case Scanned(field, n) =>
        if n < |text| && text[n] == COMMA then
          FieldsGoOn(text, n + 1, depth, path, seen + {Decoded(field.name)}, whole)
        else if n < |text| && text[n] == RIGHT_BRACE then Thrown(whole).None? && whole.Scanned? && whole.next == n + 1
        else Thrown(whole) == Some(Failure(ScanIncomplete, path))
  {
    hide ScanField, Decoded;
  }

  /** The same for elements. */
  ghost predicate ElementsGoOn(text: Text, i: nat, depth: nat, path: seq<Text>, element: nat, whole: Scan<()>) {
    i <= |text| && Erased(ScanElements(text, i, depth, MAX_DEPTH, path, element)) == whole
  }

  lemma ElementsStart(text: Text, i: nat, depth: nat, path: seq<Text>) returns (whole: Scan<()>)
    requires i <= |text|
    ensures ElementsGoOn(text, i, depth, path, 0, whole)
    ensures
      var elements := ScanElements(text, i, depth, MAX_DEPTH, path, 0);
      && Thrown(elements) == Thrown(whole)
      && (Thrown(whole).None? ==> elements.Scanned? && whole.Scanned? && elements.next == whole.next)
  {
    whole := Erased(ScanElements(text, i, depth, MAX_DEPTH, path, 0));
  }

  lemma ElementsStep(text: Text, i: nat, depth: nat, path: seq<Text>, element: nat, whole: Scan<()>)
    requires ElementsGoOn(text, i, depth, path, element, whole)
    ensures i <= |text|
    ensures
      match ScanSlot(text, i, depth, path, element)
      case Failed(_, _) => Thrown(whole) == Thrown(ScanSlot(text, i, depth, path, element))
      case Scanned(_, n) =>
        if n < |text| && text[n] == COMMA then ElementsGoOn(text, n + 1, depth, path, element + 1, whole)
        else if n < |text| && text[n] == RIGHT_BRACKET then Thrown(whole).None? && whole.Scanned? && whole.next == n + 1
        else Thrown(whole) == Some(Failure(ScanIncomplete, path))
  {
    hide ScanValue, SkipSpace, Decimal;
  }

  lemma SkipAgain(text: Text, i: nat)
    requires i <= |text|
    ensures SkipSpace(text, SkipSpace(text, i)) == SkipSpace(text, i)
  {
  }

  /** Skipping space before the loop changes nothing: the loop begins by skipping it. */
  lemma FieldsAfterSpace(text: Text, i: nat, depth: nat, path: seq<Text>)
    requires i <= |text|
    ensures Erased(ScanFields(text, SkipSpace(text, i), depth, MAX_DEPTH, path, {}))
      == Erased(ScanFields(text, i, depth, MAX_DEPTH, path, {}))
  {
    hide ScanValue, ScanString, SkipSpace, Decoded;
    SkipAgain(text, i);
  }

  lemma ElementsAfterSpace(text: Text, i: nat, depth: nat, path: seq<Text>)
    requires i <= |text|
    ensures Erased(ScanElements(text, SkipSpace(text, i), depth, MAX_DEPTH, path, 0))
      == Erased(ScanElements(text, i, depth, MAX_DEPTH, path, 0))
  {
    hide ScanValue, SkipSpace, Decimal;
    SkipAgain(text, i);
  }

  /** Whether a text is free of duplicate members: never an exception, a refusal is a result. */
  method ScanForDuplicateMembers(text: Text) returns (r: DuplicateScanResult)
    ensures r.Accepted? <==> Admissible(text, MAX_DEPTH)
    ensures r.Accepted? <==> ScanText(text, MAX_DEPTH).Scanned?
    ensures r.Rejected? ==> ScanText(text, MAX_DEPTH) == Failed(r.code, r.path)
    ensures r.Rejected? && r.code == DuplicateMember ==> LeadsToRepeat(text, r.path)
    ensures r.Rejected? && r.code == DepthLimitExceeded ==> LeadsTooDeep(text, r.path, MAX_DEPTH)
  {
    hide ScanText, Admissible, LeadsToRepeat, LeadsTooDeep;
    var scanner := new Scanner(text);
    var failure := scanner.Run();
    ScanIsExact(text, MAX_DEPTH);
    if failure.None? {
      return Accepted;
    }
    RefusalIsThere(text, MAX_DEPTH);
    return Rejected(failure.value.code, failure.value.path);
  }

  /** Why bytes were not admitted as a document. */
  datatype StrictJsonRefusal = InvalidUtf8 | NotJson | Unadmitted(code: Code)

  datatype StrictJsonRead = Parsed(value: Json) | Refused(refusal: StrictJsonRefusal)

  /** What admitting bytes comes to: decoded fatally, scanned, and only then parsed. */
  function StrictRead(decode: Bytes -> Option<Text>, parse: Text -> Option<Json>, bytes: Bytes): StrictJsonRead {
    match decode(bytes)
    case None => Refused(InvalidUtf8)
    case Some(text) =>
      match ScanText(text, MAX_DEPTH)
      case Failed(code, _) => Refused(Unadmitted(code))
      case Scanned(_, _) =>
        match parse(text)
        case None => Refused(NotJson)
        case Some(value) => Parsed(value)
  }

  /** Admits bytes as a JSON document: a value comes only from text with one meaning. */
  method ParseStrictJson(decode: Bytes -> Option<Text>, parse: Text -> Option<Json>, bytes: Bytes)
    returns (r: StrictJsonRead)
    ensures r.Parsed? <==>
      decode(bytes).Some? && Admissible(decode(bytes).value, MAX_DEPTH) && parse(decode(bytes).value).Some?
    ensures r == StrictRead(decode, parse, bytes)
  {
    hide ScanText, Admissible;
    var text := decode(bytes);
    if text.None? {
      return Refused(InvalidUtf8);
    }
    ScanIsExact(text.value, MAX_DEPTH);
    var scanner := new Scanner(text.value);
    var failure := scanner.Run();
    if failure.Some? {
      return Refused(Unadmitted(failure.value.code));
    }
    var value := parse(text.value);
    if value.None? {
      return Refused(NotJson);
    }
    return Parsed(value.value);
  }
}
