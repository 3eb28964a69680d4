/**
 The strict JSON scanner: an object advancing an index through the text. Every
 method is proved to fail exactly when the parser fails on the rest of the text
 and otherwise to stop exactly where the parser stops, so that a scan succeeds
 if and only if the text derives from the grammar.
 */
module StrictJson {
  import opened Wrappers
  import opened JsonGrammar
  import opened JsonParser

  /** The text from index i on. */
  function Suffix(source: seq<int>, i: nat): (t: Text)
    requires i <= |source|
    ensures Len(t) == |source| - i
    decreases |source| - i
  {
    if i == |source| then End else Unit(source[i], Suffix(source, i + 1))
  }

  lemma {:induction false} SuffixTwo(source: seq<int>, i: nat)
    requires i + 2 <= |source|
    ensures Suffix(source, i) == Unit(source[i], Unit(source[i + 1], Suffix(source, i + 2)))
  {
    assert Suffix(source, i + 1) == Unit(source[i + 1], Suffix(source, i + 2));
  }

  /** Where a parse ends. */
  function Stop<T>(r: Option<Found<T>>): Option<Text> {
    if r.Some? then Some(r.value.rest) else None
  }

  function WordUnits(w: Word): seq<int> {
    match w
    case True => [0x74, 0x72, 0x75, 0x65]
    case False => [0x66, 0x61, 0x6C, 0x73, 0x65]
    case Null => [0x6E, 0x75, 0x6C, 0x6C]
  }

  lemma {:induction false} WordUnitsText(w: Word)
    ensures Suffix(WordUnits(w), 0) == WordText(w)
  {
    var v := WordUnits(w);
    assert Suffix(v, |v|) == End;
    assert Suffix(v, |v| - 2) == Unit(v[|v| - 2], Unit(v[|v| - 1], End));
    assert Suffix(v, |v| - 4) == Unit(v[|v| - 4], Unit(v[|v| - 3], Suffix(v, |v| - 2)));
  }

  predicate StartsWith(source: seq<int>, i: nat, v: seq<int>) {
    i + |v| <= |source| && source[i..i + |v|] == v
  }

  lemma {:induction false} StripsPrefix(source: seq<int>, i: nat, v: seq<int>, k: nat)
    requires i + k <= |source| && k <= |v|
    ensures Strip(Suffix(source, i + k), Suffix(v, k))
         == if i + |v| <= |source| && source[i + k..i + |v|] == v[k..] then Some(Suffix(source, i + |v|)) else None
    decreases |v| - k
  {
    if k < |v| && i + k < |source| {
      if source[i + k] == v[k] {
        StripsPrefix(source, i, v, k + 1);
        assert v[k..] == [v[k]] + v[k + 1..];
        if i + |v| <= |source| {
          assert source[i + k..i + |v|] == [source[i + k]] + source[i + k + 1..i + |v|];
          assert source[i + k + 1..i + |v|] == source[i + k..i + |v|][1..];
          assert v[k + 1..] == v[k..][1..];
        }
      } else if i + |v| <= |source| {
        assert source[i + k..i + |v|][0] != v[k..][0];
      }
    }
  }

  lemma {:induction false} SkipSettles(s: Text)
    ensures NoSpace(Skip(s).rest) && Skip(Skip(s).rest) == Found(End, Skip(s).rest)
  {
    if s.Unit? && IsSpace(s.head) {
      SkipSettles(s.tail);
    }
  }

  /** White space already skipped does not change where the members end. */
  lemma {:induction false} MembersAfterSpace(s: Text, depth: nat, keys: set<Text>)
    ensures Stop(ParseMembers(Skip(s).rest, depth, keys)) == Stop(ParseMembers(s, depth, keys))
  {
    SkipSettles(s);
    assert Stop(ParseKey(Skip(s).rest, keys)) == Stop(ParseKey(s, keys));
  }

  lemma {:induction false} ItemsAfterSpace(s: Text, depth: nat)
    ensures Stop(ParseItems(Skip(s).rest, depth)) == Stop(ParseItems(s, depth))
  {
    SkipSettles(s);
    assert Stop(ParseElement(Skip(s).rest, depth)) == Stop(ParseElement(s, depth));
  }

  /** Where an object ends, after its opening bracket and the white space behind it. */
  lemma {:induction false} ObjectStop(s: Text, depth: nat)
    requires Starts(s, OPEN_OBJECT)
    ensures var after := Skip(s.tail).rest;
            Stop(ParseTree(s, depth)) == if depth >= MAX_DEPTH then None
                                         else if Starts(after, CLOSE_OBJECT) then Some(after.tail)
                                         else Stop(ParseMembers(after, depth + 1, {}))
  {
    MembersAfterSpace(s.tail, depth + 1, {});
  }

  /** Where the members from s on end, after their first one. */
  lemma {:induction false} MembersStop(s: Text, depth: nat, keys: set<Text>, key: Text, rest: Text)
    requires ParseKey(s, keys).Some? && ParseElement(ParseKey(s, keys).value.rest, depth).Some?
    requires key == CharsValue(ParseKey(s, keys).value.it.chars) && rest == ParseElement(ParseKey(s, keys).value.rest, depth).value.rest
    ensures Stop(ParseMembers(s, depth, keys)) == if Starts(rest, CLOSE_OBJECT) then Some(rest.tail)
                                                 else if Starts(rest, COMMA) then Stop(ParseMembers(rest.tail, depth, keys + {key}))
                                                 else None
  {
  }

  lemma {:induction false} ArrayStop(s: Text, depth: nat)
    requires Starts(s, OPEN_ARRAY)
    ensures var after := Skip(s.tail).rest;
            Stop(ParseTree(s, depth)) == if depth >= MAX_DEPTH then None
                                         else if Starts(after, CLOSE_ARRAY) then Some(after.tail)
                                         else Stop(ParseItems(after, depth + 1))
  {
    ItemsAfterSpace(s.tail, depth + 1);
  }

  class JsonScanner {
    var index: nat
    const source: seq<int>

    constructor (source: seq<int>)
      ensures this.source == source && index == 0
    {
      this.source, index := source, 0;
    }

    /** The text still to be read. */
    ghost function Rest(): Text
      requires index <= |source|
      reads this
    {
      Suffix(source, index)
    }

    predicate At(c: int)
      reads this
    {
      index < |source| && source[index] == c
    }

    method SkipWhitespace()
      requires index <= |source|
      modifies this
      ensures old(index) <= index <= |source|
      ensures Rest() == Skip(old(Rest())).rest
    {
      while index < |source| && IsSpace(source[index])
        invariant old(index) <= index <= |source|
        invariant Skip(Rest()).rest == Skip(old(Rest())).rest
      {
        index := index + 1;
      }
    }

    method Take(c: int) returns (ok: bool)
      requires index <= |source|
      modifies this
      ensures ok == Starts(old(Rest()), c) && index == old(index) + if ok then 1 else 0
      ensures index <= |source| && Rest() == if ok then old(Rest()).tail else old(Rest())
    {
      ok := At(c);
      if ok {
        index := index + 1;
      }
    }

    method Word(w: JsonGrammar.Word) returns (ok: bool)
      requires index <= |source|
      modifies this
      ensures ok == Strip(old(Rest()), WordText(w)).Some?
      ensures ok ==> old(index) < index <= |source| && Some(Rest()) == Strip(old(Rest()), WordText(w))
    {
      var v := WordUnits(w);
      WordUnitsText(w);
      StripsPrefix(source, index, v, 0);
      ok := StartsWith(source, index, v);
      if ok {
        index := index + |v|;
      }
    }

    /** From the letter u of an escape to after its four digits. */
    method ReadHexCodeUnit() returns (ok: bool, unit: int)
      requires 0 < index < |source| && source[index - 1] == BACKSLASH && source[index] == LETTER_U
      modifies this
      ensures var h := ParseHex(Suffix(source, old(index) - 1));
              && ok == h.Some?
              && (ok ==> unit == HexUnit(h.value.it) && index == old(index) + 5 <= |source| && Rest() == h.value.rest)
    {
      ok, unit := false, 0;
      var start := index + 1;
      ghost var s := Suffix(source, index - 1);
      SuffixTwo(source, index - 1);
      if start + 4 <= |source| {
        SuffixTwo(source, start);
        SuffixTwo(source, start + 2);
        var h := Hex4(source[start], source[start + 1], source[start + 2], source[start + 3]);
        if HexOk(h) {
          index := start + 4;
          return true, HexUnit(h);
        }
      } else {
        if ParseHex(s).Some? {
          HexLength(s);
        }
      }
    }

    /** An escape at its backslash; the parser ends alike on the string from here and from after it. */
    method Escape() returns (ok: bool)
      requires At(BACKSLASH)
      modifies this
      ensures !ok ==> ParseEscape(old(Rest())).None?
      ensures ok ==> old(index) < index <= |source| && Stop(ParseChars(Rest())) == Stop(ParseEscape(old(Rest())))
    {
      index := index + 1;
      if index == |source| {
        return false;
      }
      SuffixTwo(source, index - 1);
      if IsShort(source[index]) {
        index := index + 1;
        return true;
      }
      if source[index] != LETTER_U {
        return false;
      }
      var read, unit := ReadHexCodeUnit();
      if read && IsHigh(unit) {
        EscapeStarts(source, index);
        if !StartsWith(source, index, [BACKSLASH, LETTER_U]) {
          return false;
        }
        index := index + 1;
        var low;
        read, low := ReadHexCodeUnit();
        return read && IsLow(low);
      }
      return read && !IsLow(unit);
    }

    /**
     A string at its opening quote, and its unescaped text. The loop finds its end; the text
     itself is taken from the parser, standing for the source's JSON.parse of the slice scanned.
     */
    method String() returns (ok: bool, key: Text)
      requires At(QUOTE)
      modifies this
      ensures var r := ParseChars(old(Rest()).tail);
              && ok == r.Some?
              && (ok ==> old(index) < index <= |source| && Rest() == r.value.rest && key == CharsValue(r.value.it))
    {
      index := index + 1;
      ghost var s := Rest();
      var start := index;
      while index < |source|
        invariant start <= index <= |source|
        invariant Stop(ParseChars(Rest())) == Stop(ParseChars(s))
        decreases |source| - index
      {
        var code := source[index];
        if code == QUOTE {
          index := index + 1;
          return true, CharsValue(ParseChars(Suffix(source, start)).value.it);
        }
        if code < 0x20 {
          return false, End;
        }
        if code != BACKSLASH {
          index := index + 1;
          continue;
        }
        var escaped := Escape();
        if !escaped {
          return false, End;
        }
      }
      return false, End;
    }

    /** A number at its first digit. */
    method Number() returns (ok: bool)
      requires index < |source| && IsDigit(source[index])
      modifies this
      ensures ok == ParseNumber(old(Rest())).Some?
      ensures ok ==> old(index) < index <= |source| && Rest() == ParseNumber(old(Rest())).value.rest
    {
      ghost var s := Rest();
      var j, number := index + 1, source[index] - 0x30;
      if source[index] != 0x30 {
        while j < |source| && IsDigit(source[j])
          invariant index < j <= |source|
          invariant ParseDigits(Suffix(source, j)).rest == ParseDigits(s).rest
          invariant Natural(ParseDigits(Suffix(source, j)).it, number) == Natural(ParseDigits(s).it, 0)
        {
          number := number * 10 + (source[j] - 0x30);
          j := j + 1;
        }
      }
      ghost var rest := Suffix(source, j);
      ok := (j == |source| || IsRegexSpace(source[j]) || source[j] == COMMA || source[j] == CLOSE_ARRAY || source[j] == CLOSE_OBJECT)
        && number <= MAX_SAFE_INTEGER;
      assert Natural(Unit(0x30, End), 0) == 0;
      if ok {
        index := j;
      }
    }

    /** Leading white space and a value inside `depth` enclosing arrays and objects. */
    method Value(depth: nat) returns (ok: bool)
      requires index <= |source|
      modifies this
      ensures var r := ParseTree(Skip(old(Rest())).rest, depth);
              ok == r.Some? && (ok ==> old(index) < index <= |source| && Rest() == r.value.rest)
      decreases |source| - index, 1
    {
      SkipWhitespace();
      if At(OPEN_OBJECT) {
        ok := Object(depth + 1);
      } else if At(OPEN_ARRAY) {
        ok := Array(depth + 1);
      } else if At(QUOTE) {
        var read, _ := String();
        ok := read;
      } else if At(0x74) {
        ok := Word(True);
      } else if At(0x66) {
        ok := Word(False);
      } else if At(0x6E) {
        ok := Word(Null);
      } else if index < |source| && IsDigit(source[index]) {
        ok := Number();
      } else {
        ok := false;
      }
    }

    method Object(depth: nat) returns (ok: bool)
      requires At(OPEN_OBJECT) && depth > 0
      modifies this
      ensures ok == ParseTree(old(Rest()), depth - 1).Some?
      ensures ok ==> old(index) < index <= |source| && Some(Rest()) == Stop(ParseTree(old(Rest()), depth - 1))
      decreases |source| - index, 0
    {
      ObjectStop(Rest(), depth - 1);
      if depth > MAX_DEPTH {
        return false;
      }
      index := index + 1;
      SkipWhitespace();
      var closed := Take(CLOSE_OBJECT);
      if closed {
        return true;
      }
      ghost var s := Rest();
      var keys: set<Text> := {};
      while true
        invariant old(index) < index <= |source|
        invariant Stop(ParseMembers(Rest(), depth, keys)) == Stop(ParseMembers(s, depth, {}))
        decreases |source| - index
      {
        ghost var from := Rest();
        var read, key := Member(depth, keys);
        if !read {
          return false;
        }
        MembersStop(from, depth, keys, key, Rest());
        keys := keys + {key};
        closed := Take(CLOSE_OBJECT);
        if closed {
          return true;
        }
        var comma := Take(COMMA);
        if !comma {
          return false;
        }
      }
    }

    /** One field of an object: a new key, a colon and a value, with the white space around them. */
    method Member(depth: nat, keys: set<Text>) returns (ok: bool, key: Text)
      requires index <= |source|
      modifies this
      ensures var k := ParseKey(old(Rest()), keys);
              var e := if k.Some? then ParseElement(k.value.rest, depth) else None;
              && ok == e.Some?
              && (ok ==> old(index) < index <= |source| && Rest() == e.value.rest && key == CharsValue(k.value.it.chars))
      decreases |source| - index, 2
    {
      ok, key := false, End;
      SkipWhitespace();
      if !At(QUOTE) {
        return;
      }
      var read;
      read, key := String();
      if !read || key in keys {
        return;
      }
      SkipWhitespace();
      var colon := Take(COLON);
      if !colon {
        return;
      }
      ok := Value(depth);
      if ok {
        SkipWhitespace();
      }
    }

    method Array(depth: nat) returns (ok: bool)
      requires At(OPEN_ARRAY) && depth > 0
      modifies this
      ensures ok == ParseTree(old(Rest()), depth - 1).Some?
      ensures ok ==> old(index) < index <= |source| && Some(Rest()) == Stop(ParseTree(old(Rest()), depth - 1))
      decreases |source| - index, 0
    {
      ArrayStop(Rest(), depth - 1);
      if depth > MAX_DEPTH {
        return false;
      }
      index := index + 1;
      SkipWhitespace();
      var closed := Take(CLOSE_ARRAY);
      if closed {
        return true;
      }
      ghost var s := Rest();
      while true
        invariant old(index) < index <= |source|
        invariant Stop(ParseItems(Rest(), depth)) == Stop(ParseItems(s, depth))
        decreases |source| - index
      {
        var value := Value(depth);
        if !value {
          return false;
        }
        SkipWhitespace();
        closed := Take(CLOSE_ARRAY);
        if closed {
          return true;
        }
        var comma := Take(COMMA);
        if !comma {
          return false;
        }
      }
    }

    /** The whole text is scanned if and only if it derives from the grammar. */
    method Scan() returns (ok: bool)
      requires index == 0
      modifies this
      ensures ok <==> Derives(Suffix(source, 0))
    {
      ghost var s := Rest();
      AcceptsExactlyTheGrammar(s);
      SkipSettles(s);
      SkipWhitespace();
      ok := Value(0);
      if ok {
        SkipWhitespace();
        ok := index == |source|;
      }
    }
  }

  lemma {:induction false} HexLength(s: Text)
    requires ParseHex(s).Some?
    ensures Len(s) == 6 + Len(ParseHex(s).value.rest)
  {
    HexSound(s);
    var d1 := s.tail.tail;
    assert Len(s) == 2 + Len(d1);
    assert Len(d1) == 2 + Len(d1.tail.tail);
  }

  lemma {:induction false} EscapeStarts(source: seq<int>, i: nat)
    requires i <= |source|
    ensures StartsWith(source, i, [BACKSLASH, LETTER_U]) <==>
            Starts(Suffix(source, i), BACKSLASH) && Starts(Suffix(source, i).tail, LETTER_U)
  {
    if i + 2 <= |source| {
      assert source[i..i + 2] == [source[i], source[i + 1]];
      assert Suffix(source, i).tail == Suffix(source, i + 1);
    }
  }
}
