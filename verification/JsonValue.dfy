/**
 The values that strict JSON texts denote, and a compact printer for them: no
 white space, and escapes only where a string needs one. Printing a value and
 reading the text back gives the value again.
 */
module JsonValue {
  import opened Wrappers
  import opened JsonGrammar
  import opened JsonParser

  datatype Value =
    | NullValue
    | BoolValue(bool)
    | NumberValue(number: int)
    | StringValue(text: Text)
    | ArrayValue(values: Values)
    | ObjectValue(fields: Fields)

  datatype Values = NoValues | Values(first: Value, more: Values)

  datatype Fields = NoFields | Fields(name: Text, value: Value, others: Fields)

  // ---------- What a tree denotes ----------

  function WordValue(w: Word): Value {
    match w
    case True => BoolValue(true)
    case False => BoolValue(false)
    case Null => NullValue
  }

  function TreeValue(t: Tree): Value {
    match t
    case Literal(w) => WordValue(w)
    case Number(n) => NumberValue(Natural(n, 0))
    case String(cs) => StringValue(CharsValue(cs))
    case EmptyArray(_) => ArrayValue(NoValues)
    case Array(items) => ArrayValue(ItemsValue(items))
    case EmptyObject(_) => ObjectValue(NoFields)
    case Object(members) => ObjectValue(MembersValue(members))
  }

  function ItemsValue(items: Items): Values {
    match items
    case LastItem(e) => Values(TreeValue(e.tree), NoValues)
    case MoreItems(e, more) => Values(TreeValue(e.tree), ItemsValue(more))
  }

  function MembersValue(members: Members): Fields {
    match members
    case LastMember(k, e) => Fields(CharsValue(k.chars), TreeValue(e.tree), NoFields)
    case MoreMembers(k, e, others) => Fields(CharsValue(k.chars), TreeValue(e.tree), MembersValue(others))
  }

  // ---------- The values in range ----------

  predicate TextOk(t: Text) {
    t.Unit? ==> t.head >= 0 && TextOk(t.tail)
  }

  predicate ValueOk(v: Value, depth: nat) {
    match v
    case NullValue => true
    case BoolValue(_) => true
    case NumberValue(n) => 0 <= n <= MAX_SAFE_INTEGER
    case StringValue(t) => TextOk(t)
    case ArrayValue(vs) => depth < MAX_DEPTH && ValuesOk(vs, depth + 1)
    case ObjectValue(fs) => depth < MAX_DEPTH && FieldsOk(fs, depth + 1, {})
  }

  predicate ValuesOk(vs: Values, depth: nat) {
    vs.Values? ==> ValueOk(vs.first, depth) && ValuesOk(vs.more, depth)
  }

  predicate FieldsOk(fs: Fields, depth: nat, keys: set<Text>) {
    fs.Fields? ==> TextOk(fs.name) && fs.name !in keys && ValueOk(fs.value, depth) && FieldsOk(fs.others, depth, keys + {fs.name})
  }

  // ---------- Printing ----------

  function HexDigit(n: int): int {
    if n < 10 then 0x30 + n else 0x61 + n - 10
  }

  function PrintUnit(u: int): Char {
    if u == QUOTE || u == BACKSLASH then Short(u)
    else if u == 0x08 then Short(0x62)
    else if u == 0x09 then Short(0x74)
    else if u == 0x0A then Short(0x6E)
    else if u == 0x0C then Short(0x66)
    else if u == 0x0D then Short(0x72)
    else if u < 0x20 then Escape(Hex4(0x30, 0x30, HexDigit(u / 16), HexDigit(u % 16)))
    else Raw(u)
  }

  function PrintText(t: Text): Chars {
    match t
    case End => NoChars
    case Unit(u, tail) => Chars(PrintUnit(u), PrintText(tail))
  }

  function PrintNumber(n: nat, rest: Text): Text {
    if n < 10 then Unit(0x30 + n, rest) else PrintNumber(n / 10, Unit(0x30 + n % 10, rest))
  }

  function Bare(t: Tree): Element {
    Element(End, t, End)
  }

  function Print(v: Value): Tree {
    match v
    case NullValue => Literal(Null)
    case BoolValue(b) => Literal(if b then True else False)
    case NumberValue(n) => Number(PrintNumber(if n >= 0 then n else 0, End))
    case StringValue(t) => String(PrintText(t))
    case ArrayValue(vs) => if vs.NoValues? then EmptyArray(End) else Array(PrintValues(vs))
    case ObjectValue(fs) => if fs.NoFields? then EmptyObject(End) else Object(PrintFields(fs))
  }

  function PrintValues(vs: Values): Items
    requires vs.Values?
  {
    var e := Bare(Print(vs.first));
    if vs.more.NoValues? then LastItem(e) else MoreItems(e, PrintValues(vs.more))
  }

  function PrintFields(fs: Fields): Members
    requires fs.Fields?
  {
    var k := Key(End, PrintText(fs.name), End);
    var e := Bare(Print(fs.value));
    if fs.others.NoFields? then LastMember(k, e) else MoreMembers(k, e, PrintFields(fs.others))
  }

  // ---------- Printing is right ----------

  lemma {:induction false} PrintUnitReads(u: int, rest: Text)
    requires u >= 0
    ensures CharOk(PrintUnit(u)) && CharValue(PrintUnit(u), rest) == Unit(u, rest)
  {
  }

  lemma {:induction false} PrintTextReads(t: Text)
    requires TextOk(t)
    ensures CharsOk(PrintText(t)) && CharsValue(PrintText(t)) == t
  {
    if t.Unit? {
      PrintTextReads(t.tail);
      PrintUnitReads(t.head, t.tail);
    }
  }

  lemma {:induction false} PrintNumberReads(n: nat, rest: Text)
    requires AllDigits(rest)
    ensures Natural(PrintNumber(n, rest), 0) == Natural(rest, n)
    ensures AllDigits(PrintNumber(n, rest)) && PrintNumber(n, rest).Unit?
    ensures n > 0 ==> PrintNumber(n, rest).head != 0x30
  {
    if n >= 10 {
      PrintNumberReads(n / 10, Unit(0x30 + n % 10, rest));
    }
  }

  lemma {:induction false} PrintReads(v: Value, depth: nat)
    requires ValueOk(v, depth)
    ensures TreeOk(Print(v), depth) && TreeValue(Print(v)) == v
    decreases v
  {
    match v {
      case NumberValue(n) => PrintNumberReads(n, End);
      case StringValue(t) => PrintTextReads(t);
      case ArrayValue(vs) => if vs.Values? { PrintValuesReads(vs, depth + 1); }
      case ObjectValue(fs) => if fs.Fields? { PrintFieldsReads(fs, depth + 1, {}); }
      case _ =>
    }
  }

  lemma {:induction false} PrintValuesReads(vs: Values, depth: nat)
    requires vs.Values? && ValuesOk(vs, depth)
    ensures ItemsOk(PrintValues(vs), depth) && ItemsValue(PrintValues(vs)) == vs
    decreases vs
  {
    PrintReads(vs.first, depth);
    if vs.more.Values? {
      PrintValuesReads(vs.more, depth);
    }
  }

  lemma {:induction false} PrintFieldsReads(fs: Fields, depth: nat, keys: set<Text>)
    requires fs.Fields? && FieldsOk(fs, depth, keys)
    ensures MembersOk(PrintFields(fs), depth, keys) && MembersValue(PrintFields(fs)) == fs
    decreases fs
  {
    PrintTextReads(fs.name);
    PrintReads(fs.value, depth);
    if fs.others.Fields? {
      PrintFieldsReads(fs.others, depth, keys + {fs.name});
    }
  }

  // ---------- Reading is right ----------

  lemma {:induction false} CharReads(c: Char, rest: Text)
    requires CharOk(c) && TextOk(rest)
    ensures TextOk(CharValue(c, rest))
  {
    if c.Pair? {
      assert TextOk(Unit(HexUnit(c.low), rest));
    }
  }

  lemma {:induction false} CharsRead(cs: Chars)
    requires CharsOk(cs)
    ensures TextOk(CharsValue(cs))
  {
    if cs.Chars? {
      CharsRead(cs.others);
      CharReads(cs.first, CharsValue(cs.others));
    }
  }

  lemma {:induction false} NaturalGrows(t: Text, before: int)
    requires AllDigits(t) && before >= 0
    ensures Natural(t, before) >= before
  {
    if t.Unit? {
      NaturalGrows(t.tail, before * 10 + (t.head - 0x30));
    }
  }

  /** Whatever a well-formed tree denotes is in range. */
  lemma {:induction false} TreeReads(t: Tree, depth: nat)
    requires TreeOk(t, depth)
    ensures ValueOk(TreeValue(t), depth)
    decreases t
  {
    match t {
      case Number(n) => NaturalGrows(n, 0);
      case String(cs) => CharsRead(cs);
      case Array(items) => ItemsRead(items, depth + 1);
      case Object(members) => MembersRead(members, depth + 1, {});
      case _ =>
    }
  }

  lemma {:induction false} ItemsRead(items: Items, depth: nat)
    requires ItemsOk(items, depth)
    ensures ValuesOk(ItemsValue(items), depth)
    decreases items
  {
    TreeReads(items.item.tree, depth);
    if items.MoreItems? {
      ItemsRead(items.more, depth);
    }
  }

  lemma {:induction false} MembersRead(members: Members, depth: nat, keys: set<Text>)
    requires MembersOk(members, depth, keys)
    ensures FieldsOk(MembersValue(members), depth, keys)
    decreases members
  {
    CharsRead(members.key.chars);
    TreeReads(members.value.tree, depth);
    if members.MoreMembers? {
      MembersRead(members.others, depth, keys + {CharsValue(members.key.chars)});
    }
  }

  // ---------- Texts and values ----------

  function Stringify(v: Value): Text {
    RenderElement(Bare(Print(v)), End)
  }

  /** The value of an accepted text. */
  function Read(s: Text): Option<Value> {
    var e := Parse(s);
    if e.Some? then Some(TreeValue(e.value.tree)) else None
  }

  /** Any value in range, printed compactly, is accepted and reads back equal. */
  lemma {:induction false} RoundTrip(v: Value)
    requires ValueOk(v, 0)
    ensures Read(Stringify(v)) == Some(v)
  {
    PrintReads(v, 0);
    ParseRendered(Bare(Print(v)));
  }

  /** The values of accepted texts are exactly the values in range. */
  lemma {:induction false} ReadsExactlyTheValuesInRange(v: Value)
    ensures ValueOk(v, 0) <==> exists s :: Read(s) == Some(v)
  {
    if ValueOk(v, 0) {
      RoundTrip(v);
    }
    if s :| Read(s) == Some(v) {
      AcceptsExactlyTheGrammar(s);
      TreeReads(Parse(s).value.tree, 0);
    }
  }
}
