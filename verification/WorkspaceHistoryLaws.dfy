/**
 What the workspace history promises about each operation, list by list: the bytes of
 the written text, what the stored formats read as, when an update is refused, and what
 becomes of every path.
 */
module WorkspaceHistoryLaws {
  import opened Wrappers
  import opened Decimals
  import opened WorkspaceHistory

  // ---------- The written text ----------

  /** The items of an indented list, one on each line. */
  function ItemsText(quote: string -> string, xs: seq<string>): string {
    if xs == [] then ""
    else "    " + quote(xs[0]) + (if |xs| == 1 then "" else ",\n") + ItemsText(quote, xs[1..])
  }

  function ListText(quote: string -> string, xs: seq<string>): string {
    if xs == [] then "[]" else "[\n" + ItemsText(quote, xs) + "\n  ]"
  }

  /** A record as it is written, in bytes: indented by two, with a newline at the end. */
  function RecordText(quote: string -> string, m: Memory): string {
    "{\n  \"version\": 2,\n  \"revision\": " + Decimal(m.revision)
    + ",\n  \"lastWorkspacePath\": " + (if m.last.Some? then quote(m.last.value) else "null")
    + ",\n  \"recentWorkspacePaths\": " + ListText(quote, m.recent)
    + ",\n  \"pinnedWorkspacePaths\": " + ListText(quote, m.pinned) + "\n}\n"
  }

  /** A version 1 record as its writer laid it out. */
  function V1Text(quote: string -> string, revision: nat, last: Option<string>, recent: seq<string>): string {
    "{\n  \"version\": 1,\n  \"revision\": " + Decimal(revision)
    + ",\n  \"lastWorkspacePath\": " + (if last.Some? then quote(last.value) else "null")
    + ",\n  \"recentWorkspacePaths\": " + ListText(quote, recent) + "\n}\n"
  }

  lemma {:induction false} DigitsAreWritten(n: nat)
    ensures |Decimal(n)| == Digits(n)
  {
    if n >= 10 {
      DigitsAreWritten(n / 10);
    }
  }

  lemma {:induction false} ListIsWritten(quote: string -> string, q: Quoted, xs: seq<string>)
    requires forall p :: q(p) == |quote(p)|
    ensures |ListText(quote, xs)| == ListSize(q, xs)
    ensures xs != [] ==> |ItemsText(quote, xs)| + 2 == SumOf(q, xs)
  {
    if |xs| > 1 {
      ListIsWritten(quote, q, xs[1..]);
    } else if |xs| == 1 {
      assert xs[1..] == [];
      assert ItemsText(quote, xs[1..]) == "" && SumOf(q, xs[1..]) == 0;
    }
  }

  /** The sizes that the limits are about are the lengths of the written texts. */
  lemma {:induction false} SizeIsTheTextLength(quote: string -> string, q: Quoted, m: Memory)
    requires forall p :: q(p) == |quote(p)|
    ensures Size(q, m) == |RecordText(quote, m)|
    ensures V1Size(q, m.revision, m.last, m.recent) == |V1Text(quote, m.revision, m.last, m.recent)|
  {
    DigitsAreWritten(m.revision);
    ListIsWritten(quote, q, m.recent);
    ListIsWritten(quote, q, m.pinned);
  }

  // ---------- What the formats read as ----------

  /** A file of the current format reads as itself, one of version 1 gains an empty list of pins. */
  lemma {:induction false} VersionedReads(q: Quoted, canonical: string -> string, m: Memory, bytes: nat)
    ensures Read(q, canonical, V2(m, bytes))
         == if Valid(m) && bytes <= 65536 && Size(q, m) <= 65536 then Answer(m, None) else Answer(Empty, Some(CorruptHistory))
    ensures Read(q, canonical, V1(m.revision, m.last, m.recent, bytes))
         == if && m.revision <= MAX_SAFE_INTEGER && |m.recent| <= 20 && Distinct(m.recent) && bytes <= 65536
               && (m.last.Some? ==> m.last.value in m.recent)
            then Answer(Memory(m.revision, m.last, m.recent, []), None) else Answer(Empty, Some(CorruptHistory))
  {
  }

  /** Of the oldest format the last path survives, as the only recent one, unless it alone does not fit; no other path does. */
  lemma {:induction false} LegacyKeepsTheLastPath(q: Quoted, canonical: string -> string, last: Option<string>, recent: seq<string>, bytes: nat)
    ensures var a := Read(q, canonical, Legacy(last, recent, bytes));
            if |recent| > 10 || bytes > 2097152 then a == Answer(Empty, Some(CorruptHistory))
            else if last.None? then a == Answer(Memory(0, None, [], []), None)
            else var only := Memory(0, Some(canonical(last.value)), [canonical(last.value)], []);
              a == if Size(q, only) <= 65536 then Answer(only, None) else Answer(Empty, Some(CorruptHistory))
  {
    var path := if last.Some? then Some(canonical(last.value)) else None;
    var all := Bounded(path, [], []);
    if path.Some? {
      DedupeDistinct([path.value]);
      assert [path.value] + [] == [path.value];
      assert all == [path.value];
    } else {
      assert |all| == 0;
      assert Size(q, Memory(0, None, [], [])) == 125;
    }
  }

  // ---------- When an update is made, and when it is refused ----------

  /** Which updates change nothing, and which meet the limit of pins. */
  lemma {:induction false} UpdateIff(q: Quoted, m: Memory, path: string)
    requires Valid(m)
    ensures OnRemember(q, m, path).NoChange? <==> path in m.pinned && m.last == Some(path)
    ensures OnForget(m, path).NoChange? <==> path !in m.recent && path !in m.pinned
    ensures OnPin(m, path).NoChange? <==> path in m.pinned
    ensures OnUnpin(q, m, path).NoChange? <==> path !in m.pinned
    ensures OnPin(m, path).PinLimit? <==> path !in m.pinned && |m.pinned| >= 50
    ensures !OnForget(m, path).PinLimit? && !OnForget(m, path).TooLarge? && !OnPin(m, path).TooLarge?
    ensures !OnRemember(q, m, path).PinLimit? && !OnUnpin(q, m, path).PinLimit?
  {
    WithoutDistinct(m.recent, path);
    WithoutDistinct(m.pinned, path);
  }

  /** Trimming stops at the first path, so only its size decides whether there is room. */
  lemma {:induction false} ReboundIff(q: Quoted, revision: nat, last: Option<string>, paths: seq<string>, pinned: seq<string>, first: string)
    requires var all := Bounded(last, paths, pinned); |all| > 0 && all[0] == first
    ensures Rebound(q, revision, last, paths, pinned).TooLarge? <==> Size(q, Memory(revision, last, [first], pinned)) > 65536
  {
    var base, all := Memory(revision, last, [], pinned), Bounded(last, paths, pinned);
    assert all[..1] == [first];
    FitsUpToTheLongest(q, base, all, 1);
    TrimIsLongest(q, base, all);
    assert base.(recent := [first]) == Memory(revision, last, [first], pinned);
  }

  /** Remembering a path that is not pinned finds no room exactly when the path alone does not fit beside the pins. */
  lemma {:induction false} RememberTooLargeIff(q: Quoted, m: Memory, path: string)
    requires Valid(m) && path !in m.pinned
    ensures OnRemember(q, m, path).TooLarge? <==> Size(q, Memory(m.revision + 1, Some(path), [path], m.pinned)) > 65536
  {
    RememberOrder(m, path);
    ReboundIff(q, m.revision + 1, Some(path), Remembered(m, path), m.pinned, path);
  }

  /** Unpinning finds no room exactly when the last path, if it is not pinned, and otherwise the unpinned one, does not fit alone. */
  lemma {:induction false} UnpinTooLargeIff(q: Quoted, m: Memory, path: string)
    requires Valid(m) && path in m.pinned
    ensures var first := if m.last.None? || m.last.value in m.pinned then path else m.last.value;
            OnUnpin(q, m, path).TooLarge? <==> Size(q, Memory(m.revision + 1, m.last, [first], Without(m.pinned, path))) > 65536
  {
    UnpinOrder(m, path);
    var first := if m.last.None? || m.last.value in m.pinned then path else m.last.value;
    ReboundIff(q, m.revision + 1, m.last, [path] + m.recent, Without(m.pinned, path), first);
  }

  /** What is decided of an update, and what the caller is told when it is not written. */
  lemma {:induction false} DecisionIff(q: Quoted, m: Memory, u: Update)
    ensures Decide(q, m, u).Write? <==> u.Next? && m.revision != MAX_SAFE_INTEGER && Size(q, u.memory) <= 65536
    ensures Decide(q, m, u).Write? ==> Decide(q, m, u).next == u.memory
    ensures Decide(q, m, u) == Keep(None) <==> u.NoChange?
    ensures Decide(q, m, u) == Keep(Some(PinLimitReached)) <==> u.PinLimit? && m.revision != MAX_SAFE_INTEGER
    ensures Decide(q, m, u).Keep? && !u.NoChange? && !u.PinLimit? ==> Decide(q, m, u) == Keep(Some(WriteFailed))
  {
  }

  // ---------- What becomes of every path ----------

  /** One value is taken out, wherever it is, and the others stay in order. */
  predicate Removed(xs: seq<string>, x: string, ys: seq<string>) {
    if x in xs then exists i :: 0 <= i < |xs| && xs[i] == x && ys == xs[..i] + xs[i + 1..] else ys == xs
  }

  lemma {:induction false} WithoutAt(xs: seq<string>, i: nat)
    requires Distinct(xs) && i < |xs|
    ensures Without(xs, xs[i]) == xs[..i] + xs[i + 1..]
    decreases |xs|
  {
    if i == 0 {
      assert xs[0] !in xs[1..];
    } else {
      assert xs[0] != xs[i] == xs[1..][i - 1];
      WithoutAt(xs[1..], i - 1);
      assert [xs[0]] + xs[1..][..i - 1] == xs[..i];
      assert xs[1..][i..] == xs[i + 1..];
    }
  }

  lemma {:induction false} WithoutRemoves(xs: seq<string>, x: string)
    requires Distinct(xs)
    ensures Removed(xs, x, Without(xs, x))
  {
    if x in xs {
      var i :| 0 <= i < |xs| && xs[i] == x;
      WithoutAt(xs, i);
    }
  }

  /** Forgetting takes one path out of both lists, pinning moves it to the front of the pins. */
  lemma {:induction false} ForgetAndPinOrder(m: Memory, path: string)
    requires Valid(m)
    ensures OnForget(m, path).Next? ==>
              var next := OnForget(m, path).memory;
              && Removed(m.recent, path, next.recent) && Removed(m.pinned, path, next.pinned)
              && next.last == (if m.last == Some(path) then None else m.last) && next.revision == m.revision + 1
    ensures OnPin(m, path).Next? ==>
              var next := OnPin(m, path).memory;
              && Removed(m.recent, path, next.recent) && next.pinned == [path] + m.pinned
              && next.last == m.last && next.revision == m.revision + 1
  {
    WithoutRemoves(m.recent, path);
    WithoutRemoves(m.pinned, path);
  }

  lemma {:induction false} DedupeLast(xs: seq<string>, x: string)
    ensures Dedupe(xs + [x]) == Dedupe(xs) + if x in xs then [] else [x]
  {
    assert (xs + [x])[..|xs|] == xs;
  }

  lemma {:induction false} DedupePairMore(a: string, b: string, xs: seq<string>, x: string)
    requires b != x && x !in xs && Dedupe([a] + ([b] + xs)) == [a, b] + Without(xs, a)
    ensures Dedupe([a] + ([b] + (xs + [x]))) == [a, b] + Without(xs + [x], a)
  {
    var before := [a] + ([b] + xs);
    assert [a] + ([b] + (xs + [x])) == before + [x];
    DedupeLast(before, x);
    WithoutLast(xs, x, a);
    assert x in before <==> x == a;
  }

  /** Two new values before a list that may hold the first of them. */
  lemma {:induction false} DedupePair(a: string, b: string, xs: seq<string>)
    requires a != b && b !in xs && Distinct(xs)
    ensures Dedupe([a] + ([b] + xs)) == [a, b] + Without(xs, a)
    decreases |xs|
  {
    if xs == [] {
      assert [a] + ([b] + xs) == [a, b];
      DedupeDistinct([a, b]);
    } else {
      var front, x := xs[..|xs| - 1], xs[|xs| - 1];
      DedupePair(a, b, front);
      DedupePairMore(a, b, front, x);
      assert front + [x] == xs;
    }
  }

  lemma {:induction false} WithoutLast(xs: seq<string>, x: string, a: string)
    ensures Without(xs + [x], a) == Without(xs, a) + if x == a then [] else [x]
    decreases |xs|
  {
    if xs == [] {
      assert xs + [x] == [x] && [x][1..] == [];
    } else {
      assert (xs + [x])[1..] == xs[1..] + [x];
      WithoutLast(xs[1..], x, a);
    }
  }

  /** The order unpinning asks for: the last path if it is an unpinned one, the unpinned path, then the other recent ones as they were. */
  ghost predicate UnpinnedOrder(m: Memory, path: string, order: seq<string>) {
    if m.last.Some? && m.last.value != path && m.last.value !in m.pinned
    then |order| >= 2 && order[0] == m.last.value && order[1] == path && Removed(m.recent, m.last.value, order[2..])
    else order == [path] + m.recent
  }

  lemma {:induction false} UnpinAsksFor(m: Memory, path: string) returns (order: seq<string>)
    requires Valid(m) && path in m.pinned
    ensures UnpinnedOrder(m, path, order)
    ensures Bounded(m.last, [path] + m.recent, Without(m.pinned, path)) == FirstTwenty(order)
  {
    assert path !in m.recent;
    if m.last.Some? && m.last.value != path && m.last.value !in m.pinned {
      var last := m.last.value;
      WithoutRemoves(m.recent, last);
      DedupePair(last, path, m.recent);
      order := [last, path] + Without(m.recent, last);
      assert order[2..] == Without(m.recent, last);
    } else {
      order := [path] + m.recent;
      UnpinWithoutLast(m, path);
    }
  }

  lemma {:induction false} UnpinWithoutLast(m: Memory, path: string)
    requires Distinct(m.recent) && path !in m.recent && (m.last.Some? ==> m.last.value == path || m.last.value in m.pinned)
    ensures Bounded(m.last, [path] + m.recent, Without(m.pinned, path)) == FirstTwenty([path] + m.recent)
  {
    DistinctCons(path, m.recent);
    if m.last == Some(path) {
      DedupeHead(path, m.recent);
    } else {
      assert [] + ([path] + m.recent) == [path] + m.recent;
      DedupeDistinct([path] + m.recent);
    }
  }

  /** Unpinning takes the path from the pins and keeps the longest prefix of that order, of at most 20 paths, that fits. */
  lemma {:induction false} UnpinContents(q: Quoted, m: Memory, path: string) returns (order: seq<string>)
    requires Valid(m) && OnUnpin(q, m, path).Next?
    ensures UnpinnedOrder(m, path, order)
    ensures var next := OnUnpin(q, m, path).memory;
            && Removed(m.pinned, path, next.pinned) && next.last == m.last && next.revision == m.revision + 1
            && LongestFitting(q, next, if |order| > 20 then order[..20] else order, Some(next.recent))
  {
    order := UnpinAsksFor(m, path);
    WithoutRemoves(m.pinned, path);
    ReboundIsLongest(q, m.revision + 1, m.last, [path] + m.recent, Without(m.pinned, path));
  }
}
