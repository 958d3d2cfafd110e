/** The language the scanner of src/strict-json.ts admits, as concrete syntax trees that print
    themselves: RFC 8259 with every number and literal left as one opaque run. */
module Grammar {
  import opened CodeUnits
  import opened Numerals

  const QUOTE: CodeUnit := 0x22
  const BACKSLASH: CodeUnit := 0x5C
  const SLASH: CodeUnit := 0x2F
  const COMMA: CodeUnit := 0x2C
  const COLON: CodeUnit := 0x3A
  const LEFT_BRACE: CodeUnit := 0x7B
  const RIGHT_BRACE: CodeUnit := 0x7D
  const LEFT_BRACKET: CodeUnit := 0x5B
  const RIGHT_BRACKET: CodeUnit := 0x5D
  const LETTER_U: CodeUnit := 0x75

  predicate IsSpace(u: CodeUnit) {
    u == 0x20 || u == 0x09 || u == 0x0A || u == 0x0D
  }

  /** What may appear in a number or in true, false and null. */
  predicate IsBare(u: CodeUnit) {
    IsDigit(u) || u == 0x45 || u == 0x2B || u == 0x2D || u == 0x2E || 0x61 <= u <= 0x7A
  }

  predicate AllSpace(t: Text) {
    forall i | 0 <= i < |t| :: IsSpace(t[i])
  }

  predicate AllBare(t: Text) {
    forall i | 0 <= i < |t| :: IsBare(t[i])
  }

  type Space = t: Text | AllSpace(t)

  type Token = t: Text | |t| > 0 && AllBare(t) witness [0x30]

  // ---------------------------------------------------------------- strings

  /** One element of a string: itself, a two-character escape, or a `\u` escape. */
  datatype RawItem = Plain(unit: CodeUnit) | Short(letter: CodeUnit) | Hex(digits: Text)

  /** The letters after a backslash, and what each stands for. */
  predicate IsShort(letter: CodeUnit) {
    || letter == QUOTE || letter == BACKSLASH || letter == SLASH
    || letter == 0x62 || letter == 0x66 || letter == 0x6E || letter == 0x72 || letter == 0x74
  }

  function ShortUnit(letter: CodeUnit): CodeUnit {
    if letter == 0x62 then 0x08
    else if letter == 0x66 then 0x0C
    else if letter == 0x6E then 0x0A
    else if letter == 0x72 then 0x0D
    else if letter == 0x74 then 0x09
    else letter
  }

  predicate ItemOk(item: RawItem) {
    match item
    case Plain(unit) => unit >= 0x20 && unit != QUOTE && unit != BACKSLASH
    case Short(letter) => IsShort(letter)
    case Hex(digits) => |digits| == 4 && AllHex(digits)
  }

  type Item = item: RawItem | ItemOk(item) witness Plain(0x41)

  function FourHex(digits: Text): CodeUnit
    requires |digits| == 4 && AllHex(digits)
  {
    4096 * HexDigitValue(digits[0]) + 256 * HexDigitValue(digits[1])
    + 16 * HexDigitValue(digits[2]) + HexDigitValue(digits[3])
  }

  function ItemUnit(item: Item): CodeUnit
  {
    match item
    case Plain(unit) => unit
    case Short(letter) => ShortUnit(letter)
    case Hex(digits) => FourHex(digits)
  }

  function ItemText(item: Item): Text {
    match item
    case Plain(unit) => [unit]
    case Short(letter) => [BACKSLASH, letter]
    case Hex(digits) => [BACKSLASH, LETTER_U] + digits
  }

  /** The string a sequence of items decodes to. */
  function Decoded(items: seq<Item>): Text
  {
    if items == [] then [] else [ItemUnit(items[0])] + Decoded(items[1..])
  }

  function ItemsText(items: seq<Item>): Text {
    if items == [] then [] else ItemText(items[0]) + ItemsText(items[1..])
  }

  function QuotedText(items: seq<Item>): Text {
    [QUOTE] + ItemsText(items) + [QUOTE]
  }

  // ---------------------------------------------------------------- values

  datatype Value =
    | Bare(token: Token)
    | Quoted(items: seq<Item>)
    | EmptyArray(space: Space)
    | Array(elements: Elements)
    | EmptyObject(space: Space)
    | Object(fields: Fields)

  /** Between commas in an array: a value and the space around it. */
  datatype Slot = Slot(before: Space, value: Value, after: Space)

  datatype Elements = LastSlot(slot: Slot) | NextSlot(slot: Slot, more: Elements)

  /** Between commas in an object. */
  datatype Field = Field(before: Space, name: seq<Item>, gap: Space, lead: Space, value: Value, after: Space)

  datatype Fields = LastField(field: Field) | NextField(field: Field, rest: Fields)

  function ValueText(v: Value): Text {
    match v
    case Bare(token) => token
    case Quoted(items) => QuotedText(items)
    case EmptyArray(space) => [LEFT_BRACKET] + space + [RIGHT_BRACKET]
    case Array(elements) => [LEFT_BRACKET] + ElementsText(elements)
    case EmptyObject(space) => [LEFT_BRACE] + space + [RIGHT_BRACE]
    case Object(fields) => [LEFT_BRACE] + FieldsText(fields)
  }

  function SlotText(slot: Slot): Text {
    slot.before + ValueText(slot.value) + slot.after
  }

  /** The slots up to and including the closing bracket. */
  function ElementsText(elements: Elements): Text {
    match elements
    case LastSlot(slot) => SlotText(slot) + [RIGHT_BRACKET]
    case NextSlot(slot, more) => SlotText(slot) + [COMMA] + ElementsText(more)
  }

  function FieldText(field: Field): Text {
    field.before + QuotedText(field.name) + field.gap + [COLON] + field.lead + ValueText(field.value) + field.after
  }

  /** The fields up to and including the closing brace. */
  function FieldsText(fields: Fields): Text {
    match fields
    case LastField(field) => FieldText(field) + [RIGHT_BRACE]
    case NextField(field, rest) => FieldText(field) + [COMMA] + FieldsText(rest)
  }

  function Max(a: nat, b: nat): nat {
    if a < b then b else a
  }

  /** How deep containers nest in a value: a scalar has none. */
  function Depth(v: Value): nat {
    match v
    case Bare(_) => 0
    case Quoted(_) => 0
    case EmptyArray(_) => 1
    case Array(elements) => 1 + ElementsDepth(elements)
    case EmptyObject(_) => 1
    case Object(fields) => 1 + FieldsDepth(fields)
  }

  function ElementsDepth(elements: Elements): nat {
    match elements
    case LastSlot(slot) => Depth(slot.value)
    case NextSlot(slot, more) => Max(Depth(slot.value), ElementsDepth(more))
  }

  function FieldsDepth(fields: Fields): nat {
    match fields
    case LastField(field) => Depth(field.value)
    case NextField(field, rest) => Max(Depth(field.value), FieldsDepth(rest))
  }

  /** The decoded names of an object's fields. */
  function Names(fields: Fields): set<Text>
  {
    match fields
    case LastField(field) => {Decoded(field.name)}
    case NextField(field, rest) => {Decoded(field.name)} + Names(rest)
  }

  /** No object at any depth has two fields whose decoded names are equal. */
  predicate Unambiguous(v: Value)
  {
    match v
    case Array(elements) => ElementsUnambiguous(elements)
    case Object(fields) => FieldsUnambiguous(fields)
    case _ => true
  }

  predicate ElementsUnambiguous(elements: Elements)
  {
    match elements
    case LastSlot(slot) => Unambiguous(slot.value)
    case NextSlot(slot, more) => Unambiguous(slot.value) && ElementsUnambiguous(more)
  }

  predicate FieldsUnambiguous(fields: Fields)
  {
    match fields
    case LastField(field) => Unambiguous(field.value)
    case NextField(field, rest) =>
      Decoded(field.name) !in Names(rest) && Unambiguous(field.value) && FieldsUnambiguous(rest)
  }
}
