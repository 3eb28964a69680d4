/**
 The grammar of strict JSON: sections 2 to 7 of RFC 8259 restricted to canonical
 non-negative safe integers, nesting of at most 32, keys unique after unescaping
 and no lone surrogate escapes. A concrete tree records every unit of the text,
 white space and spelling of escapes included, so that "derives from the grammar"
 means "is the rendering of a well-formed tree". Texts are lists of UTF-16 code
 units, as in the source language, and a tree is rendered in front of the text
 that follows it.
 */
module JsonGrammar {
  datatype Text = End | Unit(head: int, tail: Text)

  const MAX_DEPTH: nat := 32
  const MAX_SAFE_INTEGER: nat := 0x1F_FFFF_FFFF_FFFF

  const QUOTE := 0x22
  const COMMA := 0x2C
  const COLON := 0x3A
  const OPEN_ARRAY := 0x5B
  const BACKSLASH := 0x5C
  const CLOSE_ARRAY := 0x5D
  const LETTER_U := 0x75
  const OPEN_OBJECT := 0x7B
  const CLOSE_OBJECT := 0x7D

  function Len(t: Text): nat {
    match t
    case End => 0
    case Unit(_, tail) => 1 + Len(tail)
  }

  function Onto(t: Text, rest: Text): Text {
    match t
    case End => rest
    case Unit(c, tail) => Unit(c, Onto(tail, rest))
  }

  // ---------- Characters ----------

  predicate IsSpace(c: int) {
    c == 0x09 || c == 0x0A || c == 0x0D || c == 0x20
  }

  predicate AllSpace(t: Text) {
    t.Unit? ==> IsSpace(t.head) && AllSpace(t.tail)
  }

  predicate IsDigit(c: int) {
    0x30 <= c <= 0x39
  }

  predicate AllDigits(t: Text) {
    t.Unit? ==> IsDigit(t.head) && AllDigits(t.tail)
  }

  predicate IsHex(c: int) {
    IsDigit(c) || 0x41 <= c <= 0x46 || 0x61 <= c <= 0x66
  }

  function HexValue(c: int): int {
    if IsDigit(c) then c - 0x30 else if c <= 0x46 then c - 0x41 + 10 else c - 0x61 + 10
  }

  datatype Hex4 = Hex4(a: int, b: int, c: int, d: int)

  predicate HexOk(h: Hex4) {
    IsHex(h.a) && IsHex(h.b) && IsHex(h.c) && IsHex(h.d)
  }

  function HexUnit(h: Hex4): int {
    ((HexValue(h.a) * 16 + HexValue(h.b)) * 16 + HexValue(h.c)) * 16 + HexValue(h.d)
  }

  predicate IsHigh(u: int) {
    0xD800 <= u <= 0xDBFF
  }

  predicate IsLow(u: int) {
    0xDC00 <= u <= 0xDFFF
  }

  /** The letters of two-character escapes: quote, backslash, slash, b, f, n, r, t. */
  predicate IsShort(c: int) {
    c == 0x22 || c == 0x5C || c == 0x2F || c == 0x62 || c == 0x66 || c == 0x6E || c == 0x72 || c == 0x74
  }

  function ShortValue(c: int): int {
    if c == 0x62 then 0x08 else if c == 0x66 then 0x0C else if c == 0x6E then 0x0A
    else if c == 0x72 then 0x0D else if c == 0x74 then 0x09 else c
  }

  datatype Char =
    | Raw(unit: int)
    | Short(letter: int)
    | Escape(digits: Hex4)
    | Pair(high: Hex4, low: Hex4)

  datatype Chars = NoChars | Chars(first: Char, others: Chars)

  predicate CharOk(c: Char) {
    match c
    case Raw(u) => u >= 0x20 && u != QUOTE && u != BACKSLASH
    case Short(l) => IsShort(l)
    case Escape(h) => HexOk(h) && !IsHigh(HexUnit(h)) && !IsLow(HexUnit(h))
    case Pair(h, l) => HexOk(h) && HexOk(l) && IsHigh(HexUnit(h)) && IsLow(HexUnit(l))
  }

  predicate CharsOk(cs: Chars) {
    cs.Chars? ==> CharOk(cs.first) && CharsOk(cs.others)
  }

  function RenderHex(h: Hex4, rest: Text): Text {
    Unit(BACKSLASH, Unit(LETTER_U, Unit(h.a, Unit(h.b, Unit(h.c, Unit(h.d, rest))))))
  }

  function RenderChar(c: Char, rest: Text): Text {
    match c
    case Raw(u) => Unit(u, rest)
    case Short(l) => Unit(BACKSLASH, Unit(l, rest))
    case Escape(h) => RenderHex(h, rest)
    case Pair(h, l) => RenderHex(h, RenderHex(l, rest))
  }

  /** The rest of a string after its opening quote. */
  function RenderChars(cs: Chars, rest: Text): Text {
    match cs
    case NoChars => Unit(QUOTE, rest)
    case Chars(c, others) => RenderChar(c, RenderChars(others, rest))
  }

  /** What one spelled character stands for, in front of what follows it. */
  function CharValue(c: Char, rest: Text): Text {
    match c
    case Raw(u) => Unit(u, rest)
    case Short(l) => Unit(ShortValue(l), rest)
    case Escape(h) => Unit(HexUnit(h), rest)
    case Pair(h, l) => Unit(HexUnit(h), Unit(HexUnit(l), rest))
  }

  /** The string between the quotes, unescaped. */
  function CharsValue(cs: Chars): Text {
    match cs
    case NoChars => End
    case Chars(c, others) => CharValue(c, CharsValue(others))
  }

  // ---------- Numbers and literals ----------

  /** The digits read in base ten after the digits worth `before`. */
  function Natural(t: Text, before: int): int {
    match t
    case End => before
    case Unit(c, tail) => Natural(tail, before * 10 + (c - 0x30))
  }

  predicate Canonical(t: Text) {
    t == Unit(0x30, End) || (t.Unit? && t.head != 0x30 && AllDigits(t))
  }

  predicate NumberOk(t: Text) {
    Canonical(t) && Natural(t, 0) <= MAX_SAFE_INTEGER
  }

  datatype Word = True | False | Null

  function WordText(w: Word): Text {
    match w
    case True => Unit(0x74, Unit(0x72, Unit(0x75, Unit(0x65, End))))
    case False => Unit(0x66, Unit(0x61, Unit(0x6C, Unit(0x73, Unit(0x65, End)))))
    case Null => Unit(0x6E, Unit(0x75, Unit(0x6C, Unit(0x6C, End))))
  }

  // ---------- Trees ----------

  datatype Tree =
    | Literal(word: Word)
    | Number(numeral: Text)
    | String(chars: Chars)
    | EmptyArray(space: Text)
    | Array(items: Items)
    | EmptyObject(space: Text)
    | Object(members: Members)

  /** A value with the white space around it. */
  datatype Element = Element(before: Text, tree: Tree, after: Text)

  datatype Items = LastItem(item: Element) | MoreItems(item: Element, more: Items)

  datatype Key = Key(before: Text, chars: Chars, after: Text)

  datatype Members = LastMember(key: Key, value: Element) | MoreMembers(key: Key, value: Element, others: Members)

  function Render(t: Tree, rest: Text): Text {
    match t
    case Literal(w) => Onto(WordText(w), rest)
    case Number(n) => Onto(n, rest)
    case String(cs) => Unit(QUOTE, RenderChars(cs, rest))
    case EmptyArray(sp) => Unit(OPEN_ARRAY, Onto(sp, Unit(CLOSE_ARRAY, rest)))
    case Array(items) => Unit(OPEN_ARRAY, RenderItems(items, rest))
    case EmptyObject(sp) => Unit(OPEN_OBJECT, Onto(sp, Unit(CLOSE_OBJECT, rest)))
    case Object(members) => Unit(OPEN_OBJECT, RenderMembers(members, rest))
  }

  function RenderElement(e: Element, rest: Text): Text {
    Onto(e.before, Render(e.tree, Onto(e.after, rest)))
  }

  function RenderItems(items: Items, rest: Text): Text {
    match items
    case LastItem(e) => RenderElement(e, Unit(CLOSE_ARRAY, rest))
    case MoreItems(e, more) => RenderElement(e, Unit(COMMA, RenderItems(more, rest)))
  }

  function RenderKey(k: Key, rest: Text): Text {
    Onto(k.before, Unit(QUOTE, RenderChars(k.chars, Onto(k.after, Unit(COLON, rest)))))
  }

  function RenderMembers(members: Members, rest: Text): Text {
    match members
    case LastMember(k, e) => RenderKey(k, RenderElement(e, Unit(CLOSE_OBJECT, rest)))
    case MoreMembers(k, e, more) => RenderKey(k, RenderElement(e, Unit(COMMA, RenderMembers(more, rest))))
  }

  /** Well-formed inside `depth` enclosing arrays and objects. */
  predicate TreeOk(t: Tree, depth: nat) {
    match t
    case Literal(_) => true
    case Number(n) => NumberOk(n)
    case String(cs) => CharsOk(cs)
    case EmptyArray(sp) => depth < MAX_DEPTH && AllSpace(sp)
    case Array(items) => depth < MAX_DEPTH && ItemsOk(items, depth + 1)
    case EmptyObject(sp) => depth < MAX_DEPTH && AllSpace(sp)
    case Object(members) => depth < MAX_DEPTH && MembersOk(members, depth + 1, {})
  }

  predicate ElementOk(e: Element, depth: nat) {
    AllSpace(e.before) && TreeOk(e.tree, depth) && AllSpace(e.after)
  }

  predicate ItemsOk(items: Items, depth: nat) {
    ElementOk(items.item, depth) && (items.MoreItems? ==> ItemsOk(items.more, depth))
  }

  /** A key different, once unescaped, from the keys before it. */
  predicate KeyOk(k: Key, keys: set<Text>) {
    AllSpace(k.before) && CharsOk(k.chars) && AllSpace(k.after) && CharsValue(k.chars) !in keys
  }

  predicate MembersOk(members: Members, depth: nat, keys: set<Text>) {
    && KeyOk(members.key, keys)
    && ElementOk(members.value, depth)
    && (members.MoreMembers? ==> MembersOk(members.others, depth, keys + {CharsValue(members.key.chars)}))
  }

  /** The text derives from the grammar. */
  ghost predicate Derives(text: Text) {
    exists e: Element :: ElementOk(e, 0) && RenderElement(e, End) == text
  }
}
