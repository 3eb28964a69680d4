/**
 A functional reading of the scanner: each function takes the rest of the text
 and returns the concrete tree found at its start and the text after it, failing
 exactly where the scanner throws. It accepts precisely the texts that derive
 from the grammar, and each of them has only one derivation.
 */
module JsonParser {
  import opened Wrappers
  import opened JsonGrammar

  datatype Found<T> = Found(it: T, rest: Text)

  // ---------- The parser ----------

  predicate Starts(s: Text, c: int) {
    s.Unit? && s.head == c
  }

  function Skip(s: Text): (r: Found<Text>)
    ensures Len(r.rest) <= Len(s)
  {
    if s.Unit? && IsSpace(s.head) then
      var r := Skip(s.tail);
      Found(Unit(s.head, r.it), r.rest)
    else Found(End, s)
  }

  /** Backslash, u and four hexadecimal digits. */
  function ParseHex(s: Text): (r: Option<Found<Hex4>>)
    ensures r.Some? ==> Len(r.value.rest) < Len(s)
  {
    if !Starts(s, BACKSLASH) || !Starts(s.tail, LETTER_U) then None else
    var d1 := s.tail.tail;
    if d1.End? || d1.tail.End? then None else
    var d3 := d1.tail.tail;
    if d3.End? || d3.tail.End? then None else
    var h := Hex4(d1.head, d1.tail.head, d3.head, d3.tail.head);
    assert Len(d3.tail.tail) < Len(d3.tail) < Len(d3) < Len(d1.tail) < Len(d1) < Len(s.tail) < Len(s);
    if HexOk(h) then Some(Found(h, d3.tail.tail)) else None
  }

  function Prepend(c: Char, r: Option<Found<Chars>>): Option<Found<Chars>> {
    if r.Some? then Some(Found(Chars(c, r.value.it), r.value.rest)) else None
  }

  /** From after the opening quote to after the closing one. */
  function ParseChars(s: Text): (r: Option<Found<Chars>>)
    ensures r.Some? ==> Len(r.value.rest) < Len(s)
    decreases Len(s), 1
  {
    if s.End? || s.head < 0x20 then None
    else if s.head == QUOTE then Some(Found(NoChars, s.tail))
    else if s.head == BACKSLASH then ParseEscape(s)
    else Prepend(Raw(s.head), ParseChars(s.tail))
  }

  /** From a backslash to after the closing quote. */
  function ParseEscape(s: Text): (r: Option<Found<Chars>>)
    requires s.Unit?
    ensures r.Some? ==> Len(r.value.rest) < Len(s)
    decreases Len(s), 0
  {
    assert s.tail.Unit? ==> Len(s.tail.tail) < Len(s.tail) < Len(s);
    if s.tail.End? then None
    else if IsShort(s.tail.head) then Prepend(Short(s.tail.head), ParseChars(s.tail.tail))
    else
      var h := ParseHex(s);
      if h.None? then None
      else if IsHigh(HexUnit(h.value.it)) then
        var l := ParseHex(h.value.rest);
        if l.None? || !IsLow(HexUnit(l.value.it)) then None
        else Prepend(Pair(h.value.it, l.value.it), ParseChars(l.value.rest))
      else if IsLow(HexUnit(h.value.it)) then None
      else Prepend(Escape(h.value.it), ParseChars(h.value.rest))
  }

  /** The longest run of digits. */
  function ParseDigits(s: Text): (r: Found<Text>)
    ensures Len(r.rest) <= Len(s)
    ensures s.Unit? && IsDigit(s.head) ==> Len(r.rest) < Len(s)
  {
    if s.Unit? && IsDigit(s.head) then
      var r := ParseDigits(s.tail);
      Found(Unit(s.head, r.it), r.rest)
    else Found(End, s)
  }

  /** White space as the source language's regular expressions understand it. */
  predicate IsRegexSpace(c: int) {
    || 0x09 <= c <= 0x0D || c == 0x20 || c == 0xA0 || c == 0x1680 || 0x2000 <= c <= 0x200A
    || c == 0x2028 || c == 0x2029 || c == 0x202F || c == 0x205F || c == 0x3000 || c == 0xFEFF
  }

  predicate MayFollowNumber(s: Text) {
    s.Unit? ==> IsRegexSpace(s.head) || s.head == COMMA || s.head == CLOSE_ARRAY || s.head == CLOSE_OBJECT
  }

  function ParseNumber(s: Text): (r: Option<Found<Text>>)
    requires s.Unit? && IsDigit(s.head)
    ensures r.Some? ==> Len(r.value.rest) < Len(s)
  {
    var n := if s.head == 0x30 then Found(Unit(0x30, End), s.tail) else ParseDigits(s);
    if MayFollowNumber(n.rest) && Natural(n.it, 0) <= MAX_SAFE_INTEGER then Some(n) else None
  }

  /** What follows the prefix p. */
  function Strip(s: Text, p: Text): (r: Option<Text>)
    ensures r.Some? ==> Len(r.value) <= Len(s) && (p.Unit? ==> Len(r.value) < Len(s))
  {
    if p.End? then Some(s)
    else if Starts(s, p.head) then Strip(s.tail, p.tail)
    else None
  }

  function ParseWord(s: Text, w: Word): (r: Option<Found<Tree>>)
    ensures r.Some? ==> Len(r.value.rest) < Len(s)
  {
    var rest := Strip(s, WordText(w));
    if rest.Some? then Some(Found(Literal(w), rest.value)) else None
  }

  /** A value that is neither an array nor an object. */
  function ParseScalar(s: Text): (r: Option<Found<Tree>>)
    ensures r.Some? ==> Len(r.value.rest) < Len(s)
  {
    if s.End? then None
    else if s.head == QUOTE then
      var cs := ParseChars(s.tail);
      if cs.None? then None else Some(Found(String(cs.value.it), cs.value.rest))
    else if s.head == 0x74 then ParseWord(s, True)
    else if s.head == 0x66 then ParseWord(s, False)
    else if s.head == 0x6E then ParseWord(s, Null)
    else if IsDigit(s.head) then
      var n := ParseNumber(s);
      if n.None? then None else Some(Found(Number(n.value.it), n.value.rest))
    else None
  }

  /** A value at its first unit. */
  function ParseTree(s: Text, depth: nat): (r: Option<Found<Tree>>)
    ensures r.Some? ==> Len(r.value.rest) < Len(s)
    decreases Len(s), 0
  {
    if Starts(s, OPEN_OBJECT) then
      if depth >= MAX_DEPTH then None else
      var sp := Skip(s.tail);
      if Starts(sp.rest, CLOSE_OBJECT) then Some(Found(EmptyObject(sp.it), sp.rest.tail)) else
      var ms := ParseMembers(s.tail, depth + 1, {});
      if ms.None? then None else Some(Found(Object(ms.value.it), ms.value.rest))
    else if Starts(s, OPEN_ARRAY) then
      if depth >= MAX_DEPTH then None else
      var sp := Skip(s.tail);
      if Starts(sp.rest, CLOSE_ARRAY) then Some(Found(EmptyArray(sp.it), sp.rest.tail)) else
      var es := ParseItems(s.tail, depth + 1);
      if es.None? then None else Some(Found(Array(es.value.it), es.value.rest))
    else ParseScalar(s)
  }

  /** A value and the white space around it. */
  function ParseElement(s: Text, depth: nat): (r: Option<Found<Element>>)
    ensures r.Some? ==> Len(r.value.rest) < Len(s)
    decreases Len(s), 1
  {
    var before := Skip(s);
    var t := ParseTree(before.rest, depth);
    if t.None? then None else
    var after := Skip(t.value.rest);
    Some(Found(Element(before.it, t.value.it, after.it), after.rest))
  }

  function ParseItems(s: Text, depth: nat): (r: Option<Found<Items>>)
    ensures r.Some? ==> Len(r.value.rest) < Len(s)
    decreases Len(s), 2
  {
    var e := ParseElement(s, depth);
    if e.None? then None
    else if Starts(e.value.rest, CLOSE_ARRAY) then Some(Found(LastItem(e.value.it), e.value.rest.tail))
    else if Starts(e.value.rest, COMMA) then
      var more := ParseItems(e.value.rest.tail, depth);
      if more.None? then None else Some(Found(MoreItems(e.value.it, more.value.it), more.value.rest))
    else None
  }

  /** A key that is not yet taken, and its colon. */
  function ParseKey(s: Text, keys: set<Text>): (r: Option<Found<Key>>)
    ensures r.Some? ==> Len(r.value.rest) < Len(s)
  {
    var before := Skip(s);
    if !Starts(before.rest, QUOTE) then None else
    var cs := ParseChars(before.rest.tail);
    if cs.None? || CharsValue(cs.value.it) in keys then None else
    var after := Skip(cs.value.rest);
    if Starts(after.rest, COLON) then Some(Found(Key(before.it, cs.value.it, after.it), after.rest.tail)) else None
  }

  function ParseMembers(s: Text, depth: nat, keys: set<Text>): (r: Option<Found<Members>>)
    ensures r.Some? ==> Len(r.value.rest) < Len(s)
    decreases Len(s), 2
  {
    var k := ParseKey(s, keys);
    if k.None? then None else
    var e := ParseElement(k.value.rest, depth);
    if e.None? then None
    else if Starts(e.value.rest, CLOSE_OBJECT) then Some(Found(LastMember(k.value.it, e.value.it), e.value.rest.tail))
    else if Starts(e.value.rest, COMMA) then
      var others := ParseMembers(e.value.rest.tail, depth, keys + {CharsValue(k.value.it.chars)});
      if others.None? then None
      else Some(Found(MoreMembers(k.value.it, e.value.it, others.value.it), others.value.rest))
    else None
  }

  /** The whole text. */
  function Parse(s: Text): Option<Element> {
    var e := ParseElement(s, 0);
    if e.Some? && e.value.rest.End? then Some(e.value.it) else None
  }

  // ---------- White space, strings, numbers and literals ----------

  lemma {:induction false} SkipSound(s: Text)
    ensures AllSpace(Skip(s).it) && Onto(Skip(s).it, Skip(s).rest) == s
  {
    if s.Unit? && IsSpace(s.head) {
      SkipSound(s.tail);
    }
  }

  predicate NoSpace(s: Text) {
    s.Unit? ==> !IsSpace(s.head)
  }

  lemma {:induction false} SkipComplete(sp: Text, rest: Text)
    requires AllSpace(sp) && NoSpace(rest)
    ensures Skip(Onto(sp, rest)) == Found(sp, rest)
  {
    if sp.Unit? {
      SkipComplete(sp.tail, rest);
    }
  }

  lemma {:induction false} HexSound(s: Text)
    requires ParseHex(s).Some?
    ensures var r := ParseHex(s).value; HexOk(r.it) && RenderHex(r.it, r.rest) == s
  {
    var d1 := s.tail.tail;
    var d3 := d1.tail.tail;
    assert d3 == Unit(d3.head, Unit(d3.tail.head, d3.tail.tail));
    assert d1 == Unit(d1.head, Unit(d1.tail.head, d3));
    assert s == Unit(BACKSLASH, Unit(LETTER_U, d1));
  }

  lemma {:induction false} CharsSound(s: Text)
    requires ParseChars(s).Some?
    ensures var r := ParseChars(s).value; CharsOk(r.it) && RenderChars(r.it, r.rest) == s
    decreases Len(s)
  {
    if s.head == BACKSLASH {
      if IsShort(s.tail.head) {
        CharsSound(s.tail.tail);
      } else {
        var h := ParseHex(s).value;
        HexSound(s);
        if IsHigh(HexUnit(h.it)) {
          HexSound(h.rest);
          CharsSound(ParseHex(h.rest).value.rest);
        } else {
          CharsSound(h.rest);
        }
      }
    } else if s.head != QUOTE {
      CharsSound(s.tail);
    }
  }

  lemma {:induction false} CharsComplete(cs: Chars, rest: Text)
    requires CharsOk(cs)
    ensures ParseChars(RenderChars(cs, rest)) == Some(Found(cs, rest))
  {
    if cs.Chars? {
      CharsComplete(cs.others, rest);
      CharStep(cs.first, RenderChars(cs.others, rest));
    }
  }

  lemma {:induction false} CharStep(c: Char, s: Text)
    requires CharOk(c)
    ensures ParseChars(RenderChar(c, s)) == Prepend(c, ParseChars(s))
  {
    match c {
      case Raw(_) =>
      case Short(_) =>
      case Escape(h) => assert ParseHex(RenderHex(h, s)) == Some(Found(h, s));
      case Pair(h, l) =>
        assert ParseHex(RenderHex(l, s)) == Some(Found(l, s));
        assert ParseHex(RenderHex(h, RenderHex(l, s))) == Some(Found(h, RenderHex(l, s)));
    }
  }

  lemma {:induction false} DigitsSound(s: Text)
    ensures AllDigits(ParseDigits(s).it) && Onto(ParseDigits(s).it, ParseDigits(s).rest) == s
  {
    if s.Unit? && IsDigit(s.head) {
      DigitsSound(s.tail);
    }
  }

  lemma {:induction false} DigitsComplete(n: Text, rest: Text)
    requires AllDigits(n) && (rest.Unit? ==> !IsDigit(rest.head))
    ensures ParseDigits(Onto(n, rest)) == Found(n, rest)
  {
    if n.Unit? {
      DigitsComplete(n.tail, rest);
    }
  }

  lemma {:induction false} StripExact(s: Text, p: Text, rest: Text)
    ensures Strip(s, p) == Some(rest) <==> s == Onto(p, rest)
    decreases p
  {
    if p.Unit? && Starts(s, p.head) {
      StripExact(s.tail, p.tail, rest);
    }
  }

  lemma {:induction false} ScalarSound(s: Text)
    requires ParseScalar(s).Some?
    ensures var r := ParseScalar(s).value;
            TreeOk(r.it, 0) && Render(r.it, r.rest) == s && (r.it.Literal? || r.it.Number? || r.it.String?)
  {
    var r := ParseScalar(s).value;
    match r.it {
      case String(_) => CharsSound(s.tail);
      case Literal(w) => StripExact(s, WordText(w), r.rest);
      case Number(_) => DigitsSound(s);
    }
  }

  /** What stands after a value: white space, a comma, a closing bracket or the end. */
  predicate Delimited(s: Text) {
    s.Unit? ==> IsSpace(s.head) || s.head == COMMA || s.head == CLOSE_ARRAY || s.head == CLOSE_OBJECT
  }

  lemma {:induction false} NumberComplete(n: Text, rest: Text)
    requires NumberOk(n) && Delimited(rest)
    ensures ParseNumber(Onto(n, rest)) == Some(Found(n, rest))
  {
    if n != Unit(0x30, End) {
      DigitsComplete(n, rest);
    } else {
      assert Onto(n, rest) == Unit(0x30, rest);
    }
  }

  lemma {:induction false} LiteralComplete(w: Word, depth: nat, rest: Text)
    ensures ParseTree(Render(Literal(w), rest), depth) == Some(Found(Literal(w), rest))
  {
    StripExact(Render(Literal(w), rest), WordText(w), rest);
  }

  lemma {:induction false} NumeralComplete(n: Text, depth: nat, rest: Text)
    requires TreeOk(Number(n), depth) && Delimited(rest)
    ensures ParseTree(Render(Number(n), rest), depth) == Some(Found(Number(n), rest))
  {
    NumberComplete(n, rest);
  }

  lemma {:induction false} ScalarComplete(t: Tree, depth: nat, rest: Text)
    requires TreeOk(t, depth) && (t.Literal? || t.Number? || t.String?) && Delimited(rest)
    ensures ParseTree(Render(t, rest), depth) == Some(Found(t, rest))
  {
    match t {
      case String(cs) => CharsComplete(cs, rest);
      case Literal(w) => LiteralComplete(w, depth, rest);
      case Number(n) => NumeralComplete(n, depth, rest);
    }
  }

  // ---------- Sound: whatever is found is well-formed and is what the text says ----------

  lemma {:induction false} TreeSound(s: Text, depth: nat)
    requires ParseTree(s, depth).Some?
    ensures var r := ParseTree(s, depth).value; TreeOk(r.it, depth) && Render(r.it, r.rest) == s
    decreases Len(s), 0
  {
    if Starts(s, OPEN_OBJECT) {
      SkipSound(s.tail);
      if !Starts(Skip(s.tail).rest, CLOSE_OBJECT) {
        MembersSound(s.tail, depth + 1, {});
      }
    } else if Starts(s, OPEN_ARRAY) {
      SkipSound(s.tail);
      if !Starts(Skip(s.tail).rest, CLOSE_ARRAY) {
        ItemsSound(s.tail, depth + 1);
      }
    } else {
      ScalarSound(s);
    }
  }

  lemma {:induction false} ElementSound(s: Text, depth: nat)
    requires ParseElement(s, depth).Some?
    ensures var r := ParseElement(s, depth).value; ElementOk(r.it, depth) && RenderElement(r.it, r.rest) == s
    decreases Len(s), 1
  {
    SkipSound(s);
    TreeSound(Skip(s).rest, depth);
    SkipSound(ParseTree(Skip(s).rest, depth).value.rest);
  }

  lemma {:induction false} ItemsSound(s: Text, depth: nat)
    requires ParseItems(s, depth).Some?
    ensures var r := ParseItems(s, depth).value; ItemsOk(r.it, depth) && RenderItems(r.it, r.rest) == s
    decreases Len(s), 2
  {
    ElementSound(s, depth);
    var e := ParseElement(s, depth).value;
    if !Starts(e.rest, CLOSE_ARRAY) {
      ItemsSound(e.rest.tail, depth);
    }
  }

  lemma {:induction false} KeySound(s: Text, keys: set<Text>)
    requires ParseKey(s, keys).Some?
    ensures var r := ParseKey(s, keys).value; KeyOk(r.it, keys) && RenderKey(r.it, r.rest) == s
  {
    SkipSound(s);
    CharsSound(Skip(s).rest.tail);
    SkipSound(ParseChars(Skip(s).rest.tail).value.rest);
  }

  lemma {:induction false} MembersSound(s: Text, depth: nat, keys: set<Text>)
    requires ParseMembers(s, depth, keys).Some?
    ensures var r := ParseMembers(s, depth, keys).value; MembersOk(r.it, depth, keys) && RenderMembers(r.it, r.rest) == s
    decreases Len(s), 2
  {
    KeySound(s, keys);
    var k := ParseKey(s, keys).value;
    ElementSound(k.rest, depth);
    var e := ParseElement(k.rest, depth).value;
    if !Starts(e.rest, CLOSE_OBJECT) {
      MembersSound(e.rest.tail, depth, keys + {CharsValue(k.it.chars)});
    }
  }

  // ---------- Complete: every well-formed tree is found where the text renders it ----------

  /** A value starts with a unit that is neither white space nor a closing bracket. */
  lemma {:induction false} FirstUnit(t: Tree, depth: nat, rest: Text)
    requires TreeOk(t, depth)
    ensures var s := Render(t, rest); s.Unit? && !IsSpace(s.head) && s.head != CLOSE_ARRAY && s.head != CLOSE_OBJECT
  {
    if t.Literal? {
      assert Onto(WordText(t.word), rest).head == WordText(t.word).head;
    }
  }

  lemma {:induction false} TreeComplete(t: Tree, depth: nat, rest: Text)
    requires TreeOk(t, depth) && Delimited(rest)
    ensures ParseTree(Render(t, rest), depth) == Some(Found(t, rest))
    decreases t
  {
    match t {
      case EmptyArray(sp) => SkipComplete(sp, Unit(CLOSE_ARRAY, rest));
      case EmptyObject(sp) => SkipComplete(sp, Unit(CLOSE_OBJECT, rest));
      case Array(items) => ItemsComplete(items, depth + 1, rest);
      case Object(members) => MembersComplete(members, depth + 1, {}, rest);
      case _ => ScalarComplete(t, depth, rest);
    }
  }

  /** A value followed by something that is not more white space. */
  lemma {:induction false} ElementComplete(e: Element, depth: nat, rest: Text)
    requires ElementOk(e, depth) && Delimited(rest) && NoSpace(rest)
    ensures ParseElement(RenderElement(e, rest), depth) == Some(Found(e, rest))
    ensures !Starts(Skip(RenderElement(e, rest)).rest, CLOSE_ARRAY)
    decreases e
  {
    var after := Onto(e.after, rest);
    SkipComplete(e.after, rest);
    FirstUnit(e.tree, depth, after);
    SkipComplete(e.before, Render(e.tree, after));
    TreeComplete(e.tree, depth, after);
  }

  lemma {:induction false} ItemsComplete(items: Items, depth: nat, rest: Text)
    requires ItemsOk(items, depth)
    ensures ParseItems(RenderItems(items, rest), depth) == Some(Found(items, rest))
    ensures !Starts(Skip(RenderItems(items, rest)).rest, CLOSE_ARRAY)
    decreases items
  {
    match items {
      case LastItem(e) => ElementComplete(e, depth, Unit(CLOSE_ARRAY, rest));
      case MoreItems(e, more) =>
        ElementComplete(e, depth, Unit(COMMA, RenderItems(more, rest)));
        ItemsComplete(more, depth, rest);
    }
  }

  lemma {:induction false} KeyComplete(k: Key, keys: set<Text>, rest: Text)
    requires KeyOk(k, keys)
    ensures ParseKey(RenderKey(k, rest), keys) == Some(Found(k, rest))
    ensures !Starts(Skip(RenderKey(k, rest)).rest, CLOSE_OBJECT)
  {
    var after := Onto(k.after, Unit(COLON, rest));
    SkipComplete(k.after, Unit(COLON, rest));
    CharsComplete(k.chars, after);
    SkipComplete(k.before, Unit(QUOTE, RenderChars(k.chars, after)));
  }

  lemma {:induction false} LastMemberStep(s: Text, depth: nat, keys: set<Text>, k: Found<Key>, e: Element, rest: Text)
    requires ParseKey(s, keys) == Some(k)
    requires ParseElement(k.rest, depth) == Some(Found(e, Unit(CLOSE_OBJECT, rest)))
    ensures ParseMembers(s, depth, keys) == Some(Found(LastMember(k.it, e), rest))
  {
  }

  lemma {:induction false} MoreMembersStep(s: Text, depth: nat, keys: set<Text>, k: Found<Key>, e: Element, more: Text, others: Found<Members>)
    requires ParseKey(s, keys) == Some(k)
    requires ParseElement(k.rest, depth) == Some(Found(e, Unit(COMMA, more)))
    requires ParseMembers(more, depth, keys + {CharsValue(k.it.chars)}) == Some(others)
    ensures ParseMembers(s, depth, keys) == Some(Found(MoreMembers(k.it, e, others.it), others.rest))
  {
  }

  lemma {:induction false} MembersComplete(members: Members, depth: nat, keys: set<Text>, rest: Text)
    requires MembersOk(members, depth, keys)
    ensures ParseMembers(RenderMembers(members, rest), depth, keys) == Some(Found(members, rest))
    ensures !Starts(Skip(RenderMembers(members, rest)).rest, CLOSE_OBJECT)
    decreases members
  {
    match members {
      case LastMember(k, e) =>
        var s := Unit(CLOSE_OBJECT, rest);
        ElementComplete(e, depth, s);
        var value := RenderElement(e, s);
        KeyComplete(k, keys, value);
        LastMemberStep(RenderKey(k, value), depth, keys, Found(k, value), e, rest);
      case MoreMembers(k, e, others) =>
        var s := Unit(COMMA, RenderMembers(others, rest));
        ElementComplete(e, depth, s);
        var value := RenderElement(e, s);
        KeyComplete(k, keys, value);
        MembersComplete(others, depth, keys + {CharsValue(k.chars)}, rest);
        MoreMembersStep(RenderKey(k, value), depth, keys, Found(k, value), e, s.tail, Found(others, rest));
    }
  }

  // ---------- The whole text ----------

  lemma {:induction false} ParseRendered(e: Element)
    requires ElementOk(e, 0)
    ensures Parse(RenderElement(e, End)) == Some(e)
  {
    ElementComplete(e, 0, End);
  }

  /** The text is accepted if and only if it derives from the grammar. */
  lemma {:induction false} AcceptsExactlyTheGrammar(s: Text)
    ensures Parse(s).Some? <==> Derives(s)
    ensures Parse(s).Some? ==> ElementOk(Parse(s).value, 0) && RenderElement(Parse(s).value, End) == s
  {
    if Parse(s).Some? {
      ElementSound(s, 0);
    }
    if Derives(s) {
      var e :| ElementOk(e, 0) && RenderElement(e, End) == s;
      ParseRendered(e);
    }
  }

  /** No text has two derivations. */
  lemma {:induction false} Unambiguous(a: Element, b: Element)
    requires ElementOk(a, 0) && ElementOk(b, 0) && RenderElement(a, End) == RenderElement(b, End)
    ensures a == b
  {
    ParseRendered(a);
    ParseRendered(b);
  }
}
