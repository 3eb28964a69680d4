/**
 What the units of a JSON text stand for, said by the characters themselves: the
 digits of an escape by their places in a list, the short escapes by the long ones
 they abbreviate, white space, punctuation and words as texts, and the surrogates
 that an escape may spell.
 */
module JsonSpelling {
  import opened Wrappers
  import opened JsonGrammar
  import opened JsonParser
  import V = JsonValue

  function Units(s: string): Text {
    if s == "" then End else Unit(s[0] as int, Units(s[1..]))
  }

  predicate Among(c: int, s: string) {
    exists k :: 0 <= k < |s| && s[k] as int == c
  }

  // ---------- Hexadecimal digits ----------

  const LOWER := "0123456789abcdef"
  const UPPER := "0123456789ABCDEF"

  /** The unit c is the digit worth d, in either case. */
  predicate SpellsDigit(c: int, d: int) {
    0 <= d < 16 && (c == LOWER[d] as int || c == UPPER[d] as int)
  }

  lemma {:induction false} DigitLists(d: nat)
    requires d < 16
    ensures LOWER[d] as int == (if d < 10 then 0x30 + d else 0x61 + d - 10)
    ensures UPPER[d] as int == (if d < 10 then 0x30 + d else 0x41 + d - 10)
  {
    assert d == 0 || d == 1 || d == 2 || d == 3 || d == 4 || d == 5 || d == 6 || d == 7
        || d == 8 || d == 9 || d == 10 || d == 11 || d == 12 || d == 13 || d == 14 || d == 15;
  }

  /** A unit is a hexadecimal digit of a value exactly if it stands at that place in one of the lists. */
  lemma {:induction false} HexDigitIff(c: int, d: int)
    ensures IsHex(c) && HexValue(c) == d <==> SpellsDigit(c, d)
  {
    if 0 <= d < 16 {
      DigitLists(d);
    }
  }

  /** The four digits of a unit in base sixteen, each in either case. */
  predicate Spells(h: Hex4, u: int) {
    && 0 <= u < 0x1_0000
    && SpellsDigit(h.a, u / 0x1000) && SpellsDigit(h.b, u / 0x100 % 16)
    && SpellsDigit(h.c, u / 0x10 % 16) && SpellsDigit(h.d, u % 16)
  }

  lemma {:induction false} DigitsOfSum(a: int, b: int, c: int, d: int)
    requires 0 <= a < 16 && 0 <= b < 16 && 0 <= c < 16 && 0 <= d < 16
    ensures var u := ((a * 16 + b) * 16 + c) * 16 + d;
            && 0 <= u < 0x1_0000
            && u / 0x1000 == a && u / 0x100 % 16 == b && u / 0x10 % 16 == c && u % 16 == d
  {
  }

  lemma {:induction false} SumOfDigits(u: int)
    requires 0 <= u < 0x1_0000
    ensures ((u / 0x1000 * 16 + u / 0x100 % 16) * 16 + u / 0x10 % 16) * 16 + u % 16 == u
    ensures 0 <= u / 0x1000 < 16
  {
  }

  lemma {:induction false} ReadIsSpelled(h: Hex4)
    requires HexOk(h)
    ensures Spells(h, HexUnit(h))
  {
    HexDigitIff(h.a, HexValue(h.a));
    HexDigitIff(h.b, HexValue(h.b));
    HexDigitIff(h.c, HexValue(h.c));
    HexDigitIff(h.d, HexValue(h.d));
    DigitsOfSum(HexValue(h.a), HexValue(h.b), HexValue(h.c), HexValue(h.d));
  }

  lemma {:induction false} SpelledIsRead(h: Hex4, u: int)
    requires Spells(h, u)
    ensures HexOk(h) && HexUnit(h) == u
  {
    HexDigitIff(h.a, u / 0x1000);
    HexDigitIff(h.b, u / 0x100 % 16);
    HexDigitIff(h.c, u / 0x10 % 16);
    HexDigitIff(h.d, u % 16);
    SumOfDigits(u);
  }

  /** Four digits are accepted, and read as a unit, exactly if they are its digits. */
  lemma {:induction false} HexUnitIff(h: Hex4, u: int)
    ensures HexOk(h) && HexUnit(h) == u <==> Spells(h, u)
  {
    if HexOk(h) {
      ReadIsSpelled(h);
    }
    if Spells(h, u) {
      SpelledIsRead(h, u);
    }
  }

  // ---------- Short escapes ----------

  const SHORT_LETTERS := "\"\\/bfnrt"

  /** The long spelling of each. */
  const SHORT_DIGITS := ["0022", "005c", "002f", "0008", "000c", "000a", "000d", "0009"]

  function DigitsAt(k: nat): (h: Hex4)
    requires k < |SHORT_DIGITS|
  {
    var s := SHORT_DIGITS[k];
    assert |s| == 4;
    Hex4(s[0] as int, s[1] as int, s[2] as int, s[3] as int)
  }

  /** There is a short escape exactly for the listed letters, and it stands for what its long spelling stands for. */
  lemma {:induction false} ShortsAbbreviate(letter: int, rest: Text)
    ensures IsShort(letter) <==> Among(letter, SHORT_LETTERS)
    ensures forall k :: 0 <= k < |SHORT_LETTERS| && SHORT_LETTERS[k] as int == letter ==>
              CharOk(Escape(DigitsAt(k))) && CharValue(Short(letter), rest) == CharValue(Escape(DigitsAt(k)), rest)
  {
    assert SHORT_LETTERS == ['"', '\\', '/', 'b', 'f', 'n', 'r', 't'];
    assert SHORT_LETTERS[0] as int == 0x22 && SHORT_LETTERS[1] as int == 0x5C && SHORT_LETTERS[2] as int == 0x2F;
    assert SHORT_LETTERS[3] as int == 0x62 && SHORT_LETTERS[4] as int == 0x66 && SHORT_LETTERS[5] as int == 0x6E;
    assert SHORT_LETTERS[6] as int == 0x72 && SHORT_LETTERS[7] as int == 0x74;
  }

  // ---------- Surrogates ----------

  /** Whole characters of a string, in front of what follows them in it. */
  function Before(cs: Chars, rest: Text): Text {
    if cs.NoChars? then rest else RenderChar(cs.first, Before(cs.others, rest))
  }

  lemma {:induction false} ReadsPast(cs: Chars, rest: Text)
    requires CharsOk(cs)
    ensures ParseChars(Before(cs, rest)).Some? <==> ParseChars(rest).Some?
  {
    if cs.Chars? {
      ReadsPast(cs.others, rest);
      CharStep(cs.first, Before(cs.others, rest));
    }
  }

  /** An escape of a unit from 0xDC00 to 0xDFFF, and the rest of the string behind it. */
  ghost predicate LowThenGood(rest: Text) {
    exists l, u, after :: Spells(l, u) && 0xDC00 <= u <= 0xDFFF && rest == RenderHex(l, after) && ParseChars(after).Some?
  }

  /** A surrogate escape where a character of a string begins. */
  lemma {:induction false} SurrogateStep(h: Hex4, u: int, rest: Text)
    requires Spells(h, u) && 0xD800 <= u <= 0xDFFF
    ensures ParseChars(RenderHex(h, rest)).Some? <==>
            u <= 0xDBFF && ParseHex(rest).Some? && IsLow(HexUnit(ParseHex(rest).value.it)) && ParseChars(ParseHex(rest).value.rest).Some?
  {
    HexUnitIff(h, u);
    var s := RenderHex(h, rest);
    assert ParseHex(s) == Some(Found(h, rest));
    assert ParseChars(s) == ParseEscape(s) && !IsShort(s.tail.head);
  }

  /** Where a string is read: a surrogate escape is accepted exactly if it is a high one directly followed by a low one. */
  lemma {:induction false} SurrogatesPairUp(h: Hex4, u: int, rest: Text)
    requires Spells(h, u) && 0xD800 <= u <= 0xDFFF
    ensures ParseChars(RenderHex(h, rest)).Some? <==> u <= 0xDBFF && LowThenGood(rest)
  {
    SurrogateStep(h, u, rest);
    if ParseChars(RenderHex(h, rest)).Some? {
      var l := ParseHex(rest).value;
      HexSound(rest);
      HexUnitIff(l.it, HexUnit(l.it));
      assert Spells(l.it, HexUnit(l.it)) && rest == RenderHex(l.it, l.rest) && ParseChars(l.rest).Some?;
    }
    if LowThenGood(rest) {
      var l, v, after :| Spells(l, v) && 0xDC00 <= v <= 0xDFFF && rest == RenderHex(l, after) && ParseChars(after).Some?;
      HexUnitIff(l, v);
      assert ParseHex(rest) == Some(Found(l, after));
    }
  }

  /** So with a string as the whole text, whatever characters stand before the escape. */
  lemma {:induction false} SurrogateTexts(cs: Chars, h: Hex4, u: int, rest: Text)
    requires CharsOk(cs) && Spells(h, u) && 0xD800 <= u <= 0xDFFF
    requires Derives(Unit(QUOTE, Before(cs, RenderHex(h, rest))))
    ensures u <= 0xDBFF && LowThenGood(rest)
  {
    var s := Unit(QUOTE, Before(cs, RenderHex(h, rest)));
    AcceptsExactlyTheGrammar(s);
    assert Skip(s) == Found(End, s);
    assert ParseTree(s, 0).Some?;
    ReadsPast(cs, RenderHex(h, rest));
    SurrogatesPairUp(h, u, rest);
  }

  // ---------- White space, punctuation and words ----------

  lemma {:induction false} SpacesAndPunctuation(c: int)
    ensures IsSpace(c) <==> Among(c, " \t\n\r")
    ensures IsDigit(c) <==> Among(c, "0123456789")
    ensures CharOk(Raw(c)) <==> c >= ' ' as int && c != '"' as int && c != '\\' as int
    ensures [QUOTE, BACKSLASH, COMMA, COLON, LETTER_U] == ['"' as int, '\\' as int, ',' as int, ':' as int, 'u' as int]
    ensures [OPEN_ARRAY, CLOSE_ARRAY, OPEN_OBJECT, CLOSE_OBJECT] == ['[' as int, ']' as int, '{' as int, '}' as int]
  {
    var spaces, digits := " \t\n\r", "0123456789";
    assert spaces[0] as int == 0x20 && spaces[1] as int == 0x09 && spaces[2] as int == 0x0A && spaces[3] as int == 0x0D;
    assert forall k :: 0 <= k < 10 ==> digits[k] as int == 0x30 + k;
    if IsDigit(c) {
      assert digits[c - 0x30] as int == c;
    }
  }

  lemma {:induction false} WordsAsWritten()
    ensures WordText(True) == Units("true") && WordText(False) == Units("false") && WordText(Null) == Units("null")
  {
    assert "true"[1..] == "rue" && "rue"[1..] == "ue" && "ue"[1..] == "e" && "e"[1..] == "";
    assert "false"[1..] == "alse" && "alse"[1..] == "lse" && "lse"[1..] == "se" && "se"[1..] == "e";
    assert "null"[1..] == "ull" && "ull"[1..] == "ll" && "ll"[1..] == "l" && "l"[1..] == "";
  }

  lemma {:induction false} WordDenotes(w: Word)
    ensures V.Read(WordText(w)) == Some(V.WordValue(w))
  {
    LiteralComplete(w, 0, End);
    OntoEnd(WordText(w));
    assert Skip(WordText(w)) == Found(End, WordText(w));
  }

  /** And they denote what they say. */
  lemma {:induction false} WordsDenote()
    ensures V.Read(Units("true")) == Some(V.BoolValue(true)) && V.Read(Units("false")) == Some(V.BoolValue(false))
    ensures V.Read(Units("null")) == Some(V.NullValue)
  {
    WordsAsWritten();
    WordDenotes(True);
    WordDenotes(False);
    WordDenotes(Null);
  }

  lemma {:induction false} OntoEnd(t: Text)
    ensures Onto(t, End) == t
  {
    if t.Unit? {
      OntoEnd(t.tail);
    }
  }

  // ---------- Numerals and nesting ----------

  /** Reading digits behind a number and printing the result is printing the number in front of the digits. */
  lemma {:induction false} PrintedBehind(t: Text, before: nat, rest: Text)
    requires AllDigits(t) && before > 0
    ensures Natural(t, before) >= 0 && V.PrintNumber(Natural(t, before), rest) == V.PrintNumber(before, Onto(t, rest))
    decreases t
  {
    if t.Unit? {
      PrintedBehind(t.tail, before * 10 + (t.head - 0x30), rest);
    }
  }

  /** The numerals are exactly the decimal spellings of the safe integers. */
  lemma {:induction false} NumeralIff(t: Text)
    ensures NumberOk(t) <==> exists n: nat :: n <= MAX_SAFE_INTEGER && t == V.PrintNumber(n, End)
  {
    if NumberOk(t) {
      var n := Natural(t, 0);
      if t.head != 0x30 {
        PrintedBehind(t.tail, t.head - 0x30, End);
        OntoEnd(t.tail);
      }
      assert n >= 0 && t == V.PrintNumber(n, End);
    }
    if n: nat :| n <= MAX_SAFE_INTEGER && t == V.PrintNumber(n, End) {
      V.PrintNumberReads(n, End);
    }
  }

  /** A zero inside n brackets. */
  function Nested(n: nat, rest: Text): Text {
    if n == 0 then Unit('0' as int, rest) else Unit('[' as int, Nested(n - 1, Unit(']' as int, rest)))
  }

  lemma {:induction false} NestedReads(n: nat, depth: nat, rest: Text)
    requires Delimited(rest)
    ensures depth <= MAX_DEPTH ==> (ParseTree(Nested(n, rest), depth).Some? <==> n + depth <= MAX_DEPTH)
    ensures ParseTree(Nested(n, rest), depth).Some? ==> ParseTree(Nested(n, rest), depth).value.rest == rest
    decreases n
  {
    if n > 0 && depth < MAX_DEPTH {
      var inner := Nested(n - 1, Unit(']' as int, rest));
      NestedReads(n - 1, depth + 1, Unit(']' as int, rest));
      assert Skip(inner) == Found(End, inner) && !Starts(inner, CLOSE_ARRAY);
      assert Skip(Unit(']' as int, rest)) == Found(End, Unit(']' as int, rest));
      var e := ParseElement(inner, depth + 1);
      assert e.Some? <==> ParseTree(inner, depth + 1).Some?;
      assert e.Some? ==> e.value.rest == Unit(']' as int, rest);
      var items := ParseItems(inner, depth + 1);
      assert items.Some? <==> e.Some?;
      assert items.Some? ==> items.value.rest == rest;
    } else if n == 0 {
      assert ParseNumber(Nested(n, rest)).Some?;
    }
  }

  /** Brackets may nest 32 deep and no deeper. */
  lemma {:induction false} NestingLimit(n: nat)
    ensures Derives(Nested(n, End)) <==> n <= 32
  {
    var s := Nested(n, End);
    AcceptsExactlyTheGrammar(s);
    NestedReads(n, 0, End);
    assert Skip(s) == Found(End, s);
    assert Skip(End) == Found(End, End);
  }
}
