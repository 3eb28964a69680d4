/**
 Reading a captured Git patch: line numbers for its rows, and the split view
 with deletions on the left and additions on the right.
 */
module GitDiff {
  import opened Wrappers
  import opened Decimals

  // ---------- Lines ----------

  datatype Kind = Context | Addition | Deletion | Hunk | Metadata

  datatype DiffLine = DiffLine(kind: Kind, text: string, oldLine: Option<nat>, newLine: Option<nat>)

  datatype Start = Start(oldLine: nat, newLine: nat)

  predicate StartsWith(s: string, p: string) {
    p <= s
  }

  /** A line without its carriage return. */
  function Text(raw: string): string {
    if raw != "" && raw[|raw| - 1] == '\r' then raw[..|raw| - 1] else raw
  }

  /** The first place at or after i that holds no digit. */
  function DigitsEnd(s: string, i: nat): (j: nat)
    requires i <= |s|
    ensures i <= j <= |s|
    decreases |s| - i
  {
    if i < |s| && '0' <= s[i] <= '9' then DigitsEnd(s, i + 1) else i
  }

  function Number(s: string): nat {
    if s == "" then 0 else
    var c := s[|s| - 1];
    Number(s[..|s| - 1]) * 10 + if '0' <= c <= '9' then (c - '0') as nat else 0
  }

  datatype Range = Range(start: nat, end: nat)

  /** A line number and an optional length from place i on. */
  function ParseRange(s: string, i: nat): (r: Option<Range>)
    requires i <= |s|
    ensures r.Some? ==> i < r.value.end <= |s|
  {
    var j := DigitsEnd(s, i);
    if j == i then None
    else if j < |s| && s[j] == ',' && DigitsEnd(s, j + 1) > j + 1 then Some(Range(Number(s[i..j]), DigitsEnd(s, j + 1)))
    else Some(Range(Number(s[i..j]), j))
  }

  /** The numbers in a hunk header. */
  function ParseHunk(s: string): Option<Start> {
    if !StartsWith(s, "@@ -") then None else
    var before := ParseRange(s, 4);
    if before.None? || !StartsWith(s[before.value.end..], " +") then None else
    var after := ParseRange(s, before.value.end + 2);
    if after.None? || !StartsWith(s[after.value.end..], " @@") then None
    else Some(Start(before.value.start, after.value.start))
  }

  predicate IsFileHeader(s: string) {
    StartsWith(s, "diff --git ")
  }

  /** Outside hunks, the two file name lines are not changes. */
  function KindOf(s: string, inHunk: bool): Kind {
    if !inHunk && (StartsWith(s, "+++") || StartsWith(s, "---")) then Metadata
    else if StartsWith(s, "+") then Addition
    else if StartsWith(s, "-") then Deletion
    else if StartsWith(s, " ") then Context
    else Metadata
  }

  // ---------- What the patterns accept ----------

  predicate Digits(s: string) {
    s != "" && forall k :: 0 <= k < |s| ==> '0' <= s[k] <= '9'
  }

  /** A line number and, behind a comma, its length, if there is one. */
  datatype RangeText = RangeText(number: string, length: Option<string>)

  predicate RangeOk(r: RangeText) {
    Digits(r.number) && (r.length.Some? ==> Digits(r.length.value))
  }

  function RangeString(r: RangeText): string {
    r.number + if r.length.Some? then "," + r.length.value else ""
  }

  /** A hunk header: the two ranges, and whatever follows the second pair of signs. */
  function Header(before: RangeText, after: RangeText, rest: string): string {
    "@@ -" + RangeString(before) + " +" + RangeString(after) + " @@" + rest
  }

  /** Digits from place i are read to their end. */
  lemma {:induction false} DigitsEndAt(s: string, i: nat, j: nat)
    requires i <= j <= |s| && (forall k :: i <= k < j ==> '0' <= s[k] <= '9') && (j < |s| ==> !('0' <= s[j] <= '9'))
    ensures DigitsEnd(s, i) == j
    decreases j - i
  {
    if i < j {
      DigitsEndAt(s, i + 1, j);
    }
  }

  lemma {:induction false} DigitsEndSpan(s: string, i: nat)
    requires i <= |s|
    ensures forall k :: i <= k < DigitsEnd(s, i) ==> '0' <= s[k] <= '9'
    decreases |s| - i
  {
    if i < |s| && '0' <= s[i] <= '9' {
      DigitsEndSpan(s, i + 1);
    }
  }

  /** A range is read where it stands, if a blank follows it. */
  lemma {:induction false} RangeReads(s: string, i: nat, r: RangeText)
    requires RangeOk(r) && i + |RangeString(r)| < |s| && s[i..i + |RangeString(r)|] == RangeString(r) && s[i + |RangeString(r)|] == ' '
    ensures ParseRange(s, i) == Some(Range(Number(r.number), i + |RangeString(r)|))
  {
    var j := i + |r.number|;
    assert forall k :: 0 <= k < |RangeString(r)| ==> s[i + k] == RangeString(r)[k];
    assert forall k :: i <= k < j ==> s[k] == r.number[k - i];
    if r.length.Some? {
      assert s[j] == RangeString(r)[|r.number|] == ',';
      assert forall k :: j + 1 <= k < i + |RangeString(r)| ==> s[k] == r.length.value[k - j - 1];
      DigitsEndAt(s, j + 1, i + |RangeString(r)|);
    }
    DigitsEndAt(s, i, j);
    var whole := s[i..i + |RangeString(r)|];
    assert whole[..|r.number|] == RangeString(r)[..|r.number|] == r.number;
    assert s[i..j] == whole[..|r.number|];
  }

  lemma {:induction false} Middle(p: string, b: string, q: string)
    ensures var s := p + b + q;
            && s[|p|..|p| + |b|] == b && s[|p| + |b|..] == q && (q != "" ==> s[|p| + |b|] == q[0])
  {
  }

  lemma {:induction false} RangeInside(p: string, r: RangeText, q: string)
    requires RangeOk(r) && q != "" && q[0] == ' '
    ensures var s := p + RangeString(r) + q;
            var end := |p| + |RangeString(r)|;
            |p| <= |s| && ParseRange(s, |p|) == Some(Range(Number(r.number), end)) && end <= |s| && s[end..] == q
  {
    Middle(p, RangeString(r), q);
    RangeReads(p + RangeString(r) + q, |p|, r);
  }

  /** The signs p, q and r stand around two ranges. */
  predicate HunkFacts(s: string, p: string, x: nat, i: nat, q: string, y: nat, k: nat, r: string) {
    && |p| <= |s| && p <= s && ParseRange(s, |p|) == Some(Range(x, i)) && q <= s[i..]
    && i + |q| <= |s| && ParseRange(s, i + |q|) == Some(Range(y, k)) && r <= s[k..]
  }

  lemma {:induction false} HunkOf(s: string, p: string, x: nat, i: nat, q: string, y: nat, k: nat, r: string)
    requires HunkFacts(s, p, x, i, q, y, k, r) && p == "@@ -" && q == " +" && r == " @@"
    ensures ParseHunk(s) == Some(Start(x, y))
  {
  }

  lemma {:induction false} Regroup(p: string, b: string, q: string, a: string, r: string, rest: string)
    ensures p + b + q + a + r + rest == p + b + (q + a + (r + rest)) == (p + b + q) + a + (r + rest)
    ensures p <= p + b + (q + a + (r + rest)) && q <= q + a + (r + rest) && r <= r + rest
  {
  }

  lemma {:induction false} FirstRange(p: string, before: RangeText, q: string, a: string, r: string, rest: string)
    requires RangeOk(before) && q != "" && q[0] == ' '
    ensures var s := p + RangeString(before) + q + a + r + rest;
            var end := |p| + |RangeString(before)|;
            && |p| <= |s| && p <= s && ParseRange(s, |p|) == Some(Range(Number(before.number), end))
            && end + |q| <= |s| && q <= s[end..]
  {
    Regroup(p, RangeString(before), q, a, r, rest);
    RangeInside(p, before, q + a + (r + rest));
  }

  lemma {:induction false} SecondRange(p: string, b: string, q: string, after: RangeText, r: string, rest: string)
    requires RangeOk(after) && r != "" && r[0] == ' '
    ensures var s := p + b + q + RangeString(after) + r + rest;
            var start := |p| + |b| + |q|;
            var end := start + |RangeString(after)|;
            start <= |s| && ParseRange(s, start) == Some(Range(Number(after.number), end)) && end <= |s| && r <= s[end..]
  {
    Regroup(p, b, q, RangeString(after), r, rest);
    RangeInside(p + b + q, after, r + rest);
  }

  lemma {:induction false} HeaderFacts(s: string, p: string, before: RangeText, q: string, after: RangeText, r: string, rest: string)
    requires RangeOk(before) && RangeOk(after) && q != "" && q[0] == ' ' && r != "" && r[0] == ' '
    requires s == p + RangeString(before) + q + RangeString(after) + r + rest
    ensures var i := |p| + |RangeString(before)|;
            HunkFacts(s, p, Number(before.number), i, q, Number(after.number), i + |q| + |RangeString(after)|, r)
  {
    FirstRange(p, before, q, RangeString(after), r, rest);
    SecondRange(p, RangeString(before), q, after, r, rest);
  }

  /** Every header with any line numbers and lengths is read, with its two line numbers. */
  lemma {:induction false} HeaderReads(before: RangeText, after: RangeText, rest: string)
    requires RangeOk(before) && RangeOk(after)
    ensures ParseHunk(Header(before, after, rest)) == Some(Start(Number(before.number), Number(after.number)))
  {
    var s, p, q, r := Header(before, after, rest), "@@ -", " +", " @@";
    var i := |p| + |RangeString(before)|;
    HeaderFacts(s, p, before, q, after, r, rest);
    HunkOf(s, p, Number(before.number), i, q, Number(after.number), i + |q| + |RangeString(after)|, r);
  }

  lemma {:induction false} HunkParts(s: string)
    requires ParseHunk(s).Some?
    ensures |s| >= 4 && "@@ -" <= s && ParseRange(s, 4).Some?
    ensures var i := ParseRange(s, 4).value.end;
            && " +" <= s[i..] && i + 2 <= |s| && ParseRange(s, i + 2).Some? && " @@" <= s[ParseRange(s, i + 2).value.end..]
  {
  }

  lemma {:induction false} HeaderFromParts(s: string, i: nat, k: nat)
    requires |s| >= 4 && "@@ -" <= s && ParseRange(s, 4).Some? && i == ParseRange(s, 4).value.end
    requires " +" <= s[i..] && i + 2 <= |s| && ParseRange(s, i + 2).Some? && k == ParseRange(s, i + 2).value.end && " @@" <= s[k..]
    ensures exists before, after, rest :: RangeOk(before) && RangeOk(after) && s == Header(before, after, rest)
  {
    var before := RangeShape(s, 4);
    var after := RangeShape(s, i + 2);
    assert s[0..] == s;
    Begins(s, 0, "@@ -");
    Begins(s, i, " +");
    Begins(s, k, " @@");
    Assembled(s, i, k, RangeString(before), RangeString(after));
    assert s == Header(before, after, s[k + 3..]);
  }

  /** And nothing else is. */
  lemma {:induction false} HeaderShape(s: string)
    requires ParseHunk(s).Some?
    ensures exists before, after, rest :: RangeOk(before) && RangeOk(after) && s == Header(before, after, rest)
  {
    HunkParts(s);
    var i := ParseRange(s, 4).value.end;
    HeaderFromParts(s, i, ParseRange(s, i + 2).value.end);
  }

  lemma {:induction false} Begins(s: string, i: nat, p: string)
    requires i <= |s| && p <= s[i..]
    ensures i + |p| <= |s| && s[i..i + |p|] == p
  {
    assert s[i..][..|p|] == p;
  }

  lemma {:induction false} Cut(s: string, i: nat, j: nat)
    requires i <= j <= |s|
    ensures s[..j] == s[..i] + s[i..j]
  {
  }

  lemma {:induction false} Assembled(s: string, i: nat, k: nat, b: string, a: string)
    requires 4 <= i && i + 2 <= k && k + 3 <= |s|
    requires s[0..4] == "@@ -" && s[4..i] == b && s[i..i + 2] == " +" && s[i + 2..k] == a && s[k..k + 3] == " @@"
    ensures s == "@@ -" + b + " +" + a + " @@" + s[k + 3..]
  {
    assert s[..4] == s[0..4];
    Cut(s, 4, i);
    Cut(s, i, i + 2);
    Cut(s, i + 2, k);
    Cut(s, k, k + 3);
    Cut(s, k + 3, |s|);
    assert s[..|s|] == s && s[k + 3..|s|] == s[k + 3..];
  }

  lemma {:induction false} RangeShape(s: string, i: nat) returns (r: RangeText)
    requires i <= |s| && ParseRange(s, i).Some?
    ensures RangeOk(r) && s[i..ParseRange(s, i).value.end] == RangeString(r)
  {
    var j := DigitsEnd(s, i);
    DigitsEndSpan(s, i);
    var e := ParseRange(s, i).value.end;
    if e == j {
      r := RangeText(s[i..j], None);
    } else {
      DigitsEndSpan(s, j + 1);
      r := RangeText(s[i..j], Some(s[j + 1..e]));
      assert s[i..e] == s[i..j] + [s[j]] + s[j + 1..e];
    }
  }

  /** Decimal digits are read as the number they spell. */
  lemma {:induction false} DecimalReads(n: nat)
    ensures Digits(Decimal(n)) && Number(Decimal(n)) == n
  {
    if n >= 10 {
      DecimalReads(n / 10);
      assert Decimal(n)[..|Decimal(n)| - 1] == Decimal(n / 10);
    } else {
      assert Decimal(n)[..0] == "";
    }
  }

  /** A line's kind by its first character; outside hunks the two file names are no changes. */
  lemma {:induction false} KindsByFirst(s: string, inHunk: bool)
    ensures KindOf(s, inHunk) == Addition <==> |s| > 0 && s[0] == '+' && (inHunk || !("+++" <= s))
    ensures KindOf(s, inHunk) == Deletion <==> |s| > 0 && s[0] == '-' && (inHunk || !("---" <= s))
    ensures KindOf(s, inHunk) == Context <==> |s| > 0 && s[0] == ' '
    ensures KindOf(s, inHunk) != Hunk && (IsFileHeader(s) <==> "diff --git " <= s)
  {
  }

  /** What a line says by itself; its kind may depend on whether it stands in a hunk. */
  datatype Info = Info(text: string, hunk: Option<Start>, fileHeader: bool, outside: Kind, inside: Kind)

  function Classify(raw: string): Info {
    var text := Text(raw);
    Info(text, ParseHunk(text), IsFileHeader(text), KindOf(text, false), KindOf(text, true))
  }

  function Classified(lines: seq<string>): (r: seq<Info>)
    ensures |r| == |lines| && forall i :: 0 <= i < |r| ==> r[i] == Classify(lines[i])
  {
    seq(|lines|, i requires 0 <= i < |lines| => Classify(lines[i]))
  }

  /** A row for a line that is no hunk header, given the numbers of its hunk. */
  function RowFor(info: Info, oldLine: Option<nat>, newLine: Option<nat>): DiffLine {
    var kind := if oldLine.Some? || newLine.Some? then info.inside else info.outside;
    DiffLine(kind, if kind == Metadata || info.text == "" then info.text else info.text[1..],
             if IsOld(kind) then oldLine else None, if IsNew(kind) then newLine else None)
  }

  // ---------- Numbering ----------

  predicate IsOld(k: Kind) {
    k == Context || k == Deletion
  }

  predicate IsNew(k: Kind) {
    k == Context || k == Addition
  }

  /** The hunk that a line at place k belongs to: the last header before it in the same file. */
  function Governing(infos: seq<Info>, k: nat): (h: Option<nat>)
    requires k <= |infos|
    ensures h.Some? ==> h.value < k && infos[h.value].hunk.Some?
  {
    if k == 0 then None
    else if infos[k - 1].hunk.Some? then Some(k - 1)
    else if infos[k - 1].fileHeader then None
    else Governing(infos, k - 1)
  }

  function CountOld(rows: seq<DiffLine>, i: nat, k: nat): nat
    requires i <= k <= |rows|
  {
    if i == k then 0 else CountOld(rows, i, k - 1) + if IsOld(rows[k - 1].kind) then 1 else 0
  }

  function CountNew(rows: seq<DiffLine>, i: nat, k: nat): nat
    requires i <= k <= |rows|
  {
    if i == k then 0 else CountNew(rows, i, k - 1) + if IsNew(rows[k - 1].kind) then 1 else 0
  }

  /** The hunk's start plus the earlier rows of the hunk that count. */
  function OldNumber(infos: seq<Info>, rows: seq<DiffLine>, k: nat): Option<nat>
    requires k <= |rows| && k <= |infos|
  {
    var h := Governing(infos, k);
    if h.None? then None else Some(infos[h.value].hunk.value.oldLine + CountOld(rows, h.value + 1, k))
  }

  function NewNumber(infos: seq<Info>, rows: seq<DiffLine>, k: nat): Option<nat>
    requires k <= |rows| && k <= |infos|
  {
    var h := Governing(infos, k);
    if h.None? then None else Some(infos[h.value].hunk.value.newLine + CountNew(rows, h.value + 1, k))
  }

  /** A header's row is bare; any other has its kind, its text, and the numbers of its hunk where it counts. */
  function RowAt(infos: seq<Info>, rows: seq<DiffLine>, k: nat): DiffLine
    requires k <= |rows| && k < |infos|
  {
    var info := infos[k];
    if info.hunk.Some? then DiffLine(Hunk, info.text, None, None)
    else if info.fileHeader then RowFor(info, None, None)
    else RowFor(info, OldNumber(infos, rows, k), NewNumber(infos, rows, k))
  }

  predicate RowsOk(infos: seq<Info>, rows: seq<DiffLine>) {
    |rows| <= |infos| && forall k :: 0 <= k < |rows| ==> rows[k] == RowAt(infos, rows, k)
  }

  lemma {:induction false} CountsExtend(rows: seq<DiffLine>, row: DiffLine, i: nat, k: nat)
    requires i <= k <= |rows|
    ensures CountOld(rows + [row], i, k) == CountOld(rows, i, k) && CountNew(rows + [row], i, k) == CountNew(rows, i, k)
    decreases k
  {
    if i < k {
      CountsExtend(rows, row, i, k - 1);
    }
  }

  lemma {:induction false} NumbersExtend(infos: seq<Info>, rows: seq<DiffLine>, row: DiffLine, k: nat)
    requires k <= |rows| < |infos|
    ensures OldNumber(infos, rows + [row], k) == OldNumber(infos, rows, k)
    ensures NewNumber(infos, rows + [row], k) == NewNumber(infos, rows, k)
  {
    var h := Governing(infos, k);
    if h.Some? {
      CountsExtend(rows, row, h.value + 1, k);
    }
  }

  /** The number after a line, from the one at it: a header sets it, a new file clears it, a row that counts steps it. */
  function NextNumber(start: Option<nat>, fileHeader: bool, number: Option<nat>, counts: bool): Option<nat> {
    if start.Some? then start
    else if fileHeader || number.None? then None
    else Some(number.value + if counts then 1 else 0)
  }

  function OldStart(info: Info): Option<nat> {
    if info.hunk.Some? then Some(info.hunk.value.oldLine) else None
  }

  function NewStart(info: Info): Option<nat> {
    if info.hunk.Some? then Some(info.hunk.value.newLine) else None
  }

  lemma {:induction false} AfterRow(infos: seq<Info>, rows: seq<DiffLine>, i: nat)
    requires i < |infos| && i < |rows|
    ensures OldNumber(infos, rows, i + 1) == NextNumber(OldStart(infos[i]), infos[i].fileHeader, OldNumber(infos, rows, i), IsOld(rows[i].kind))
    ensures NewNumber(infos, rows, i + 1) == NextNumber(NewStart(infos[i]), infos[i].fileHeader, NewNumber(infos, rows, i), IsNew(rows[i].kind))
  {
  }

  lemma {:induction false} RowsExtend(infos: seq<Info>, rows: seq<DiffLine>, row: DiffLine)
    requires RowsOk(infos, rows) && |rows| < |infos| && row == RowAt(infos, rows, |rows|)
    ensures RowsOk(infos, rows + [row])
  {
    var rows' := rows + [row];
    forall k | 0 <= k < |rows'|
      ensures rows'[k] == RowAt(infos, rows', k)
    {
      NumbersExtend(infos, rows, row, k);
    }
  }

  /** Adding the next row, and the numbers behind it. */
  lemma {:induction false} NumberStep(infos: seq<Info>, rows: seq<DiffLine>, row: DiffLine)
    requires RowsOk(infos, rows) && |rows| < |infos| && row == RowAt(infos, rows, |rows|)
    ensures RowsOk(infos, rows + [row])
    ensures var info := infos[|rows|];
            && OldNumber(infos, rows + [row], |rows| + 1) == NextNumber(OldStart(info), info.fileHeader, OldNumber(infos, rows, |rows|), IsOld(row.kind))
            && NewNumber(infos, rows + [row], |rows| + 1) == NextNumber(NewStart(info), info.fileHeader, NewNumber(infos, rows, |rows|), IsNew(row.kind))
  {
    RowsExtend(infos, rows, row);
    NumbersExtend(infos, rows, row, |rows|);
    AfterRow(infos, rows + [row], |rows|);
  }

  /** One line: its row, and the numbers after it. */
  method ParseLine(info: Info, oldLine: Option<nat>, newLine: Option<nat>)
    returns (row: DiffLine, nextOld: Option<nat>, nextNew: Option<nat>)
    requires oldLine.Some? == newLine.Some?
    ensures row == if info.hunk.Some? then DiffLine(Hunk, info.text, None, None)
                   else if info.fileHeader then RowFor(info, None, None) else RowFor(info, oldLine, newLine)
    ensures nextOld == NextNumber(OldStart(info), info.fileHeader, oldLine, IsOld(row.kind))
    ensures nextNew == NextNumber(NewStart(info), info.fileHeader, newLine, IsNew(row.kind))
  {
    if info.hunk.Some? {
      return DiffLine(Hunk, info.text, None, None), Some(info.hunk.value.oldLine), Some(info.hunk.value.newLine);
    }
    nextOld, nextNew := oldLine, newLine;
    if info.fileHeader {
      nextOld, nextNew := None, None;
    }
    row := RowFor(info, nextOld, nextNew);
    if row.oldLine.Some? {
      nextOld := Some(row.oldLine.value + 1);
    }
    if row.newLine.Some? {
      nextNew := Some(row.newLine.value + 1);
    }
  }

  /** Every numbered row's number is its hunk's start plus the count of the earlier rows of its hunk that count. */
  method ParseGitPatch(lines: seq<string>) returns (rows: seq<DiffLine>)
    ensures |rows| == |lines| && RowsOk(Classified(lines), rows)
  {
    rows := NumberRows(Classified(lines));
  }

  method NumberRows(infos: seq<Info>) returns (rows: seq<DiffLine>)
    ensures |rows| == |infos| && RowsOk(infos, rows)
  {
    rows := [];
    var oldLine: Option<nat>, newLine: Option<nat> := None, None;
    for i := 0 to |infos|
      invariant |rows| == i && RowsOk(infos, rows)
      invariant oldLine == OldNumber(infos, rows, i) && newLine == NewNumber(infos, rows, i)
    {
      var row;
      row, oldLine, newLine := ParseLine(infos[i], oldLine, newLine);
      NumberStep(infos, rows, row);
      rows := rows + [row];
    }
  }

  // ---------- The split view ----------

  const NO_NEWLINE := "\\ No newline at end of file"

  /** Places of lines in the two columns, or of a line across both. */
  datatype SplitRow = SplitRow(left: Option<nat>, right: Option<nat>, full: Option<nat>, leftNote: Option<string>, rightNote: Option<string>)

  function Placed(x: Option<nat>): seq<nat> {
    if x.Some? then [x.value] else []
  }

  function Lefts(rows: seq<SplitRow>): seq<nat> {
    if rows == [] then [] else Lefts(rows[..|rows| - 1]) + Placed(rows[|rows| - 1].left)
  }

  function Rights(rows: seq<SplitRow>): seq<nat> {
    if rows == [] then [] else Rights(rows[..|rows| - 1]) + Placed(rows[|rows| - 1].right)
  }

  function Fulls(rows: seq<SplitRow>): seq<nat> {
    if rows == [] then [] else Fulls(rows[..|rows| - 1]) + Placed(rows[|rows| - 1].full)
  }

  /** The places of the lines that belong to the old side, in order. */
  function OldPlaces(lines: seq<DiffLine>, n: nat): seq<nat>
    requires n <= |lines|
  {
    if n == 0 then [] else OldPlaces(lines, n - 1) + if IsOld(lines[n - 1].kind) then [n - 1] else []
  }

  function NewPlaces(lines: seq<DiffLine>, n: nat): seq<nat>
    requires n <= |lines|
  {
    if n == 0 then [] else NewPlaces(lines, n - 1) + if IsNew(lines[n - 1].kind) then [n - 1] else []
  }

  /** The places of the lines that belong to neither side, except those that are notes on another line. */
  function OtherPlaces(marker: string, lines: seq<DiffLine>, n: nat): seq<nat>
    requires n <= |lines|
  {
    if n == 0 then [] else
    OtherPlaces(marker, lines, n - 1) + if IsChange(lines[n - 1]) || lines[n - 1].kind == Context || IsNote(marker, lines, n - 1) then [] else [n - 1]
  }

  // ---------- Which line a missing-newline line is about ----------

  predicate IsChange(line: DiffLine) {
    line.kind == Deletion || line.kind == Addition
  }

  predicate IsMarker(marker: string, line: DiffLine) {
    line.kind == Metadata && StartsWith(line.text, marker)
  }

  /** The last deletion (addition) before place n in the unbroken stretch of changes and markers that ends there. */
  function LastChange(marker: string, lines: seq<DiffLine>, n: nat, kind: Kind): (p: Option<nat>)
    requires n <= |lines|
    ensures p.Some? ==> p.value < n
  {
    if n == 0 then None
    else if lines[n - 1].kind == kind then Some(n - 1)
    else if IsChange(lines[n - 1]) || IsMarker(marker, lines[n - 1]) then LastChange(marker, lines, n - 1, kind)
    else None
  }

  /** The context line that only markers separate from place n. */
  function ContextBefore(marker: string, lines: seq<DiffLine>, n: nat): (p: Option<nat>)
    requires n <= |lines|
    ensures p.Some? ==> p.value < n
  {
    if n == 0 then None
    else if lines[n - 1].kind == Context then Some(n - 1)
    else if IsMarker(marker, lines[n - 1]) then ContextBefore(marker, lines, n - 1)
    else None
  }

  /** The line a marker at place n is about: the last addition of its stretch, else the last deletion, else a context line. */
  function Host(marker: string, lines: seq<DiffLine>, n: nat): (p: Option<nat>)
    requires n <= |lines|
    ensures p.Some? ==> p.value < n
  {
    if LastChange(marker, lines, n, Addition).Some? then LastChange(marker, lines, n, Addition)
    else if LastChange(marker, lines, n, Deletion).Some? then LastChange(marker, lines, n, Deletion)
    else ContextBefore(marker, lines, n)
  }

  predicate IsNote(marker: string, lines: seq<DiffLine>, n: nat)
    requires n < |lines|
  {
    IsMarker(marker, lines[n]) && Host(marker, lines, n).Some?
  }

  /** The last note among the first n lines that is about the line at place p. */
  function NoteOn(marker: string, lines: seq<DiffLine>, p: nat, n: nat): Option<string>
    requires n <= |lines|
  {
    if n == 0 then None
    else if IsMarker(marker, lines[n - 1]) && Host(marker, lines, n - 1) == Some(p) then Some(lines[n - 1].text)
    else NoteOn(marker, lines, p, n - 1)
  }

  function NoteAt(marker: string, lines: seq<DiffLine>, at: Option<nat>, n: nat): Option<string>
    requires n <= |lines|
  {
    if at.Some? then NoteOn(marker, lines, at.value, n) else None
  }

  ghost predicate RowNoted(marker: string, lines: seq<DiffLine>, row: SplitRow, n: nat)
    requires n <= |lines|
  {
    row.leftNote == NoteAt(marker, lines, row.left, n) && row.rightNote == NoteAt(marker, lines, row.right, n)
  }

  /** Each side of each row carries the last note about its line, and none if there is none. */
  ghost predicate RowsNoted(marker: string, lines: seq<DiffLine>, rows: seq<SplitRow>, n: nat)
    requires n <= |lines|
  {
    forall k :: 0 <= k < |rows| ==> RowNoted(marker, lines, rows[k], n)
  }

  lemma {:induction false} NoNoteYet(marker: string, lines: seq<DiffLine>, p: nat, n: nat)
    requires n <= p && n <= |lines|
    ensures NoteOn(marker, lines, p, n) == None
  {
    if n > 0 {
      NoNoteYet(marker, lines, p, n - 1);
    }
  }

  // ---------- Building the rows ----------

  /** The rows so far, the lines waiting to be paired, and the notes. */
  datatype View = View(rows: seq<SplitRow>, removed: seq<nat>, added: seq<nat>, notes: map<nat, string>)

  lemma {:induction false} AddRow(rows: seq<SplitRow>, row: SplitRow)
    ensures Lefts(rows + [row]) == Lefts(rows) + Placed(row.left) && Rights(rows + [row]) == Rights(rows) + Placed(row.right)
    ensures Fulls(rows + [row]) == Fulls(rows) + Placed(row.full)
  {
    assert (rows + [row])[..|rows|] == rows;
  }

  predicate Under(at: Option<nat>, n: nat) {
    at.Some? ==> at.value < n
  }

  predicate Below(rows: seq<SplitRow>, n: nat) {
    forall k :: 0 <= k < |rows| ==> Under(rows[k].left, n) && Under(rows[k].right, n)
  }

  function LastOf(xs: seq<nat>): Option<nat> {
    if xs == [] then None else Some(xs[|xs| - 1])
  }

  /** The context line in the last row. */
  function LastContext(lines: seq<DiffLine>, rows: seq<SplitRow>): Option<nat>
    requires Below(rows, |lines|)
  {
    if rows != [] && rows[|rows| - 1].left.Some? && lines[rows[|rows| - 1].left.value].kind == Context then rows[|rows| - 1].left else None
  }

  /** The first n lines are in their columns, waiting for them, across both, or notes. */
  ghost predicate InColumns(marker: string, lines: seq<DiffLine>, v: View, n: nat)
    requires n <= |lines|
  {
    && Lefts(v.rows) + v.removed == OldPlaces(lines, n)
    && Rights(v.rows) + v.added == NewPlaces(lines, n)
    && Fulls(v.rows) == OtherPlaces(marker, lines, n)
  }

  /** What a marker at place n would find is what it is about. */
  ghost predicate HostsInView(marker: string, lines: seq<DiffLine>, v: View, n: nat)
    requires n <= |lines| && Below(v.rows, |lines|)
  {
    && LastChange(marker, lines, n, Deletion) == LastOf(v.removed)
    && LastChange(marker, lines, n, Addition) == LastOf(v.added)
    && (v.removed == [] && v.added == [] ==> ContextBefore(marker, lines, n) == LastContext(lines, v.rows))
  }

  /** A waiting line stands behind all rows and has its note in the map. */
  ghost predicate Waits(marker: string, lines: seq<DiffLine>, v: View, n: nat, p: nat)
    requires n <= |lines|
  {
    p < n && Below(v.rows, p) && Note(v.notes, Some(p)) == NoteOn(marker, lines, p, n)
  }

  ghost predicate AllWait(marker: string, lines: seq<DiffLine>, v: View, n: nat)
    requires n <= |lines|
  {
    forall p :: p in v.removed || p in v.added ==> Waits(marker, lines, v, n, p)
  }

  /** A context line in the last row stands on both sides there and behind all other rows. */
  ghost predicate ContextStandsLast(lines: seq<DiffLine>, rows: seq<SplitRow>)
    requires Below(rows, |lines|)
  {
    LastContext(lines, rows).Some? ==>
      && rows[|rows| - 1].right == rows[|rows| - 1].left
      && Below(rows[..|rows| - 1], rows[|rows| - 1].left.value)
  }

  ghost predicate ViewOk(marker: string, lines: seq<DiffLine>, v: View, n: nat) {
    && n <= |lines| && Below(v.rows, n)
    && InColumns(marker, lines, v, n) && HostsInView(marker, lines, v, n)
    && AllWait(marker, lines, v, n) && RowsNoted(marker, lines, v.rows, n) && ContextStandsLast(lines, v.rows)
    && (forall p :: p in v.notes ==> p < n)
  }

  function Note(notes: map<nat, string>, at: Option<nat>): Option<string> {
    if at.Some? && at.value in notes then Some(notes[at.value]) else None
  }

  function Shorter(i: nat, xs: seq<nat>): nat {
    if i < |xs| then i else |xs|
  }

  function Pending(xs: seq<nat>, i: nat): Option<nat> {
    if i < |xs| then Some(xs[i]) else None
  }

  lemma {:induction false} ColumnGrows(before: seq<nat>, column: seq<nat>, xs: seq<nat>, i: nat)
    requires column == before + xs[..Shorter(i, xs)]
    ensures column + Placed(Pending(xs, i)) == before + xs[..Shorter(i + 1, xs)]
  {
  }

  function PairRow(v: View, i: nat): SplitRow {
    SplitRow(Pending(v.removed, i), Pending(v.added, i), None, Note(v.notes, Pending(v.removed, i)), Note(v.notes, Pending(v.added, i)))
  }

  lemma {:induction false} PairIsNoted(marker: string, lines: seq<DiffLine>, v: View, n: nat, i: nat)
    requires n <= |lines| && AllWait(marker, lines, v, n)
    ensures RowNoted(marker, lines, PairRow(v, i), n) && Under(PairRow(v, i).left, n) && Under(PairRow(v, i).right, n)
  {
    assert i < |v.removed| ==> Waits(marker, lines, v, n, v.removed[i]);
    assert i < |v.added| ==> Waits(marker, lines, v, n, v.added[i]);
  }

  /** The first i pairs of waiting lines have been added to the rows. */
  ghost predicate Paired(v: View, r: seq<SplitRow>, i: nat) {
    && Lefts(r) == Lefts(v.rows) + v.removed[..Shorter(i, v.removed)]
    && Rights(r) == Rights(v.rows) + v.added[..Shorter(i, v.added)]
    && Fulls(r) == Fulls(v.rows)
  }

  lemma {:induction false} PairStep(v: View, r: seq<SplitRow>, i: nat)
    requires Paired(v, r, i)
    ensures Paired(v, r + [PairRow(v, i)], i + 1)
  {
    AddRow(r, PairRow(v, i));
    ColumnGrows(Lefts(v.rows), Lefts(r), v.removed, i);
    ColumnGrows(Rights(v.rows), Rights(r), v.added, i);
  }

  lemma {:induction false} AllPaired(marker: string, lines: seq<DiffLine>, v: View, r: seq<SplitRow>, n: nat, count: nat)
    requires n <= |lines| && InColumns(marker, lines, v, n) && Paired(v, r, count) && count >= |v.removed| && count >= |v.added|
    ensures InColumns(marker, lines, View(r, [], [], v.notes), n)
  {
    assert v.removed[..|v.removed|] == v.removed && v.added[..|v.added|] == v.added;
    assert Lefts(r) + [] == Lefts(r) && Rights(r) + [] == Rights(r);
  }

  lemma {:induction false} NotedGrows(marker: string, lines: seq<DiffLine>, rows: seq<SplitRow>, row: SplitRow, n: nat)
    requires n <= |lines| && RowsNoted(marker, lines, rows, n) && Below(rows, n)
    requires RowNoted(marker, lines, row, n) && Under(row.left, n) && Under(row.right, n)
    ensures RowsNoted(marker, lines, rows + [row], n) && Below(rows + [row], n)
  {
  }

  /** Pair pending deletions and additions row by row. */
  method Flush(ghost marker: string, ghost lines: seq<DiffLine>, v: View, ghost n: nat) returns (r: seq<SplitRow>)
    requires ViewOk(marker, lines, v, n)
    ensures InColumns(marker, lines, View(r, [], [], v.notes), n)
    ensures RowsNoted(marker, lines, r, n) && Below(r, n)
  {
    r := v.rows;
    var count := if |v.removed| >= |v.added| then |v.removed| else |v.added|;
    assert Paired(v, r, 0);
    for i := 0 to count
      invariant Paired(v, r, i) && Below(r, n) && RowsNoted(marker, lines, r, n)
    {
      PairStep(v, r, i);
      PairIsNoted(marker, lines, v, n, i);
      NotedGrows(marker, lines, r, PairRow(v, i), n);
      r := r + [PairRow(v, i)];
    }
    AllPaired(marker, lines, v, r, n, count);
  }

  /** The note on a context line goes to both its sides. */
  function Annotate(rows: seq<SplitRow>, note: string): seq<SplitRow>
    requires rows != []
  {
    var last := |rows| - 1;
    rows[last := rows[last].(leftNote := Some(note), rightNote := Some(note))]
  }

  lemma {:induction false} AnnotateKeepsColumns(rows: seq<SplitRow>, note: string)
    requires rows != []
    ensures var r := Annotate(rows, note); Lefts(r) == Lefts(rows) && Rights(r) == Rights(rows) && Fulls(r) == Fulls(rows)
  {
    assert Annotate(rows, note)[..|rows| - 1] == rows[..|rows| - 1];
  }

  /** A marker on a context line: only the last row's notes change, and only that line's. */
  lemma {:induction false} ContextNoted(marker: string, lines: seq<DiffLine>, rows: seq<SplitRow>, i: nat)
    requires i < |lines| && Below(rows, i) && RowsNoted(marker, lines, rows, i) && ContextStandsLast(lines, rows)
    requires IsMarker(marker, lines[i]) && Host(marker, lines, i).Some? && Host(marker, lines, i) == LastContext(lines, rows)
    ensures RowsNoted(marker, lines, Annotate(rows, lines[i].text), i + 1)
  {
    var r := Annotate(rows, lines[i].text);
    var last := |rows| - 1;
    forall k | 0 <= k < last
      ensures RowNoted(marker, lines, r[k], i + 1)
    {
      assert r[k] == rows[..last][k] == rows[k] && RowNoted(marker, lines, rows[k], i);
    }
  }

  /** A marker on a waiting line: only that line's note changes. */
  lemma {:induction false} PendingNoted(marker: string, lines: seq<DiffLine>, v: View, i: nat)
    requires ViewOk(marker, lines, v, i) && i < |lines| && IsMarker(marker, lines[i])
    requires LastOf(v.added).Some? || LastOf(v.removed).Some?
    ensures var p := Host(marker, lines, i);
            && p == (if v.added != [] then LastOf(v.added) else LastOf(v.removed))
            && AllWait(marker, lines, v.(notes := v.notes[p.value := lines[i].text]), i + 1)
            && RowsNoted(marker, lines, v.rows, i + 1)
  {
    var p := Host(marker, lines, i).value;
    assert Waits(marker, lines, v, i, p);
    var w := v.(notes := v.notes[p := lines[i].text]);
    forall x | x in v.removed || x in v.added
      ensures Waits(marker, lines, w, i + 1, x)
    {
      assert Waits(marker, lines, v, i, x);
    }
    forall k | 0 <= k < |v.rows|
      ensures RowNoted(marker, lines, v.rows[k], i + 1)
    {
      assert RowNoted(marker, lines, v.rows[k], i);
    }
  }

  lemma {:induction false} PendingStep(marker: string, lines: seq<DiffLine>, v: View, i: nat, p: nat)
    requires ViewOk(marker, lines, v, i) && i < |lines| && IsMarker(marker, lines[i])
    requires v.added != [] || v.removed != []
    requires Some(p) == if v.added != [] then LastOf(v.added) else LastOf(v.removed)
    ensures ViewOk(marker, lines, v.(notes := v.notes[p := lines[i].text]), i + 1) && IsNote(marker, lines, i)
  {
    PendingNoted(marker, lines, v, i);
  }

  lemma {:induction false} ContextStep(marker: string, lines: seq<DiffLine>, v: View, i: nat)
    requires ViewOk(marker, lines, v, i) && i < |lines| && IsMarker(marker, lines[i])
    requires v.added == [] && v.removed == [] && LastContext(lines, v.rows).Some?
    ensures ViewOk(marker, lines, v.(rows := Annotate(v.rows, lines[i].text)), i + 1) && IsNote(marker, lines, i)
  {
    AnnotateKeepsColumns(v.rows, lines[i].text);
    ContextNoted(marker, lines, v.rows, i);
    var rows := Annotate(v.rows, lines[i].text);
    assert rows[..|rows| - 1] == v.rows[..|v.rows| - 1];
  }

  /** A missing-newline line becomes a note on the last pending line or on a context line just before it. */
  method TakeNote(marker: string, lines: seq<DiffLine>, i: nat, v: View) returns (taken: bool, r: View)
    requires i < |lines| && ViewOk(marker, lines, v, i)
    ensures taken <==> IsNote(marker, lines, i)
    ensures if taken then ViewOk(marker, lines, r, i + 1) else r == v
  {
    var line := lines[i];
    if IsMarker(marker, line) {
      if v.added != [] || v.removed != [] {
        var pending := if v.added != [] then v.added[|v.added| - 1] else v.removed[|v.removed| - 1];
        PendingStep(marker, lines, v, i, pending);
        return true, v.(notes := v.notes[pending := line.text]);
      }
      if LastContext(lines, v.rows).Some? {
        ContextStep(marker, lines, v, i);
        return true, v.(rows := Annotate(v.rows, line.text));
      }
    }
    return false, v;
  }

  /** A line that is no note changes no line's note. */
  lemma {:induction false} NoNewNote(marker: string, lines: seq<DiffLine>, rows: seq<SplitRow>, i: nat)
    requires i < |lines| && RowsNoted(marker, lines, rows, i) && !IsNote(marker, lines, i)
    ensures RowsNoted(marker, lines, rows, i + 1)
  {
    forall k | 0 <= k < |rows|
      ensures RowNoted(marker, lines, rows[k], i + 1)
    {
      assert RowNoted(marker, lines, rows[k], i);
    }
  }

  /** A change waits for its column. */
  function Wait(v: View, line: DiffLine, i: nat): View {
    if line.kind == Deletion then v.(removed := v.removed + [i]) else v.(added := v.added + [i])
  }

  lemma {:induction false} ChangeInColumns(marker: string, lines: seq<DiffLine>, v: View, i: nat)
    requires i < |lines| && InColumns(marker, lines, v, i) && IsChange(lines[i])
    ensures InColumns(marker, lines, Wait(v, lines[i], i), i + 1)
  {
    assert Lefts(v.rows) + (v.removed + [i]) == Lefts(v.rows) + v.removed + [i];
    assert Rights(v.rows) + (v.added + [i]) == Rights(v.rows) + v.added + [i];
  }

  lemma {:induction false} ChangeWaits(marker: string, lines: seq<DiffLine>, v: View, i: nat)
    requires i < |lines| && Below(v.rows, i) && AllWait(marker, lines, v, i) && i !in v.notes && IsChange(lines[i])
    ensures AllWait(marker, lines, Wait(v, lines[i], i), i + 1)
  {
    var w := Wait(v, lines[i], i);
    NoNoteYet(marker, lines, i, i);
    forall p | p in w.removed || p in w.added
      ensures Waits(marker, lines, w, i + 1, p)
    {
      assert p != i ==> Waits(marker, lines, v, i, p);
    }
  }

  lemma {:induction false} ChangeStep(marker: string, lines: seq<DiffLine>, v: View, i: nat)
    requires ViewOk(marker, lines, v, i) && i < |lines| && IsChange(lines[i])
    ensures ViewOk(marker, lines, Wait(v, lines[i], i), i + 1)
  {
    ChangeInColumns(marker, lines, v, i);
    ChangeWaits(marker, lines, v, i);
    NoNewNote(marker, lines, v.rows, i);
  }

  /** Any other line takes a row of its own. */
  function OwnRow(line: DiffLine, i: nat): SplitRow {
    if line.kind == Context then SplitRow(Some(i), Some(i), None, None, None) else SplitRow(None, None, Some(i), None, None)
  }

  lemma {:induction false} PlaceInColumns(marker: string, lines: seq<DiffLine>, rows: seq<SplitRow>, notes: map<nat, string>, i: nat)
    requires i < |lines| && !IsChange(lines[i]) && !IsNote(marker, lines, i)
    requires InColumns(marker, lines, View(rows, [], [], notes), i)
    ensures InColumns(marker, lines, View(rows + [OwnRow(lines[i], i)], [], [], notes), i + 1)
  {
    var row := OwnRow(lines[i], i);
    AddRow(rows, row);
    assert Lefts(rows + [row]) + [] == Lefts(rows + [row]) && Rights(rows + [row]) + [] == Rights(rows + [row]);
    assert Lefts(rows) + [] == Lefts(rows) && Rights(rows) + [] == Rights(rows);
  }

  lemma {:induction false} PlaceHosts(marker: string, lines: seq<DiffLine>, rows: seq<SplitRow>, notes: map<nat, string>, i: nat)
    requires i < |lines| && !IsChange(lines[i]) && !IsNote(marker, lines, i) && Below(rows, i)
    ensures var r := rows + [OwnRow(lines[i], i)];
            && Below(r, i + 1) && ContextStandsLast(lines, r)
            && HostsInView(marker, lines, View(r, [], [], notes), i + 1)
  {
    assert (rows + [OwnRow(lines[i], i)])[..|rows|] == rows;
  }

  lemma {:induction false} PlaceStep(marker: string, lines: seq<DiffLine>, rows: seq<SplitRow>, notes: map<nat, string>, i: nat)
    requires i < |lines| && !IsChange(lines[i]) && !IsNote(marker, lines, i)
    requires InColumns(marker, lines, View(rows, [], [], notes), i) && RowsNoted(marker, lines, rows, i) && Below(rows, i)
    requires forall p :: p in notes ==> p < i
    ensures ViewOk(marker, lines, View(rows + [OwnRow(lines[i], i)], [], [], notes), i + 1)
  {
    PlaceInColumns(marker, lines, rows, notes, i);
    PlaceHosts(marker, lines, rows, notes, i);
    NoNewNote(marker, lines, rows, i);
    NoNoteYet(marker, lines, i, i);
    NotedGrows(marker, lines, rows, OwnRow(lines[i], i), i + 1);
  }

  /** A line that is no change: a note, or the end of the pending pairs and a row of its own. */
  method SplitOther(marker: string, lines: seq<DiffLine>, v: View, i: nat) returns (r: View)
    requires ViewOk(marker, lines, v, i) && i < |lines| && !IsChange(lines[i])
    ensures ViewOk(marker, lines, r, i + 1)
  {
    var taken;
    taken, r := TakeNote(marker, lines, i, v);
    if !taken {
      var flushed := Flush(marker, lines, v, i);
      PlaceStep(marker, lines, flushed, v.notes, i);
      r := View(flushed + [OwnRow(lines[i], i)], [], [], v.notes);
    }
  }

  /**
   The left column is exactly the context and deletion lines, the right one the context and
   addition lines, every other line has a row of its own unless it is a note, all in order, and
   each side of each row carries the last note about its line.
   */
  ghost predicate IsSplitOf(marker: string, lines: seq<DiffLine>, rows: seq<SplitRow>) {
    && Lefts(rows) == OldPlaces(lines, |lines|)
    && Rights(rows) == NewPlaces(lines, |lines|)
    && Fulls(rows) == OtherPlaces(marker, lines, |lines|)
    && RowsNoted(marker, lines, rows, |lines|)
  }

  method SplitDiffRows(lines: seq<DiffLine>) returns (rows: seq<SplitRow>)
    ensures IsSplitOf(NO_NEWLINE, lines, rows)
  {
    rows := SplitRows(NO_NEWLINE, lines);
  }

  method SplitRows(marker: string, lines: seq<DiffLine>) returns (rows: seq<SplitRow>)
    ensures IsSplitOf(marker, lines, rows)
  {
    var v := View([], [], [], map[]);
    for i := 0 to |lines|
      invariant ViewOk(marker, lines, v, i)
    {
      if IsChange(lines[i]) {
        ChangeStep(marker, lines, v, i);
        v := Wait(v, lines[i], i);
      } else {
        v := SplitOther(marker, lines, v, i);
      }
    }
    rows := Flush(marker, lines, v, |lines|);
  }
}
