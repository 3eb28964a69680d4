/**
 The bounded workspace history: at most 20 recent and 50 pinned paths within
 64 KiB, its three stored formats, and the four updates.
 */
module WorkspaceHistory {
  import opened Wrappers

  // ---------- Data ----------

  const MAX_RECENT: nat := 20
  const MAX_PINNED: nat := 50
  const MAX_BYTES: nat := 64 * 1024
  const MAX_LEGACY_RECENT: nat := 10
  const MAX_LEGACY_BYTES: nat := 2 * 1024 * 1024
  const MAX_SAFE_INTEGER: nat := 0x1F_FFFF_FFFF_FFFF

  datatype Memory = Memory(revision: nat, last: Option<string>, recent: seq<string>, pinned: seq<string>)

  const Empty := Memory(0, None, [], [])

  datatype Diagnostic = CorruptHistory | LockTimeout | WriteFailed | PinLimitReached

  /** What an operation hands back: the memory, and what went wrong if anything did. */
  datatype Answer = Answer(memory: Memory, diagnostic: Option<Diagnostic>)

  /** A file's content as its parser sees it; anything else is corrupt. */
  datatype Stored =
    | Missing
    | V2(memory: Memory, bytes: nat)
    | V1(revision: nat, last: Option<string>, recent: seq<string>, bytes: nat)
    | Legacy(last: Option<string>, recent: seq<string>, bytes: nat)
    | Corrupt(bytes: nat)

  // ---------- Lists ----------

  predicate Distinct(xs: seq<string>) {
    forall i, j :: 0 <= i < j < |xs| ==> xs[i] != xs[j]
  }

  predicate Disjoint(xs: seq<string>, ys: seq<string>) {
    forall x :: x in xs ==> x !in ys
  }

  /** The list invariants of the current format. */
  predicate Valid(m: Memory) {
    && m.revision <= MAX_SAFE_INTEGER
    && |m.recent| <= MAX_RECENT && |m.pinned| <= MAX_PINNED
    && Distinct(m.recent) && Distinct(m.pinned) && Disjoint(m.recent, m.pinned)
    && (m.last.Some? ==> m.last.value in m.recent || m.last.value in m.pinned)
  }

  function Without(xs: seq<string>, x: string): (r: seq<string>)
    ensures forall y :: y in r <==> y in xs && y != x
    ensures |r| <= |xs| && (x !in xs ==> r == xs)
  {
    if xs == [] then []
    else if xs[0] == x then Without(xs[1..], x)
    else [xs[0]] + Without(xs[1..], x)
  }

  /** Every value at its first place only. */
  function Dedupe(xs: seq<string>): (r: seq<string>)
    ensures forall y :: y in r <==> y in xs
    ensures |r| <= |xs|
  {
    if xs == [] then [] else
    var before := xs[..|xs| - 1];
    if xs[|xs| - 1] in before then Dedupe(before) else Dedupe(before) + [xs[|xs| - 1]]
  }

  lemma {:induction false} DistinctCons(x: string, xs: seq<string>)
    requires Distinct(xs) && x !in xs
    ensures Distinct([x] + xs)
  {
  }

  lemma {:induction false} WithoutDistinct(xs: seq<string>, x: string)
    requires Distinct(xs)
    ensures Distinct(Without(xs, x))
    ensures x in xs ==> |Without(xs, x)| == |xs| - 1
  {
    if xs != [] {
      WithoutDistinct(xs[1..], x);
      assert xs[0] !in xs[1..];
      if xs[0] != x {
        DistinctCons(xs[0], Without(xs[1..], x));
      }
    }
  }

  lemma {:induction false} DedupeDistinct(xs: seq<string>)
    ensures Distinct(Dedupe(xs))
    ensures Distinct(xs) ==> Dedupe(xs) == xs
    ensures xs != [] ==> Dedupe(xs) != [] && Dedupe(xs)[0] == xs[0]
  {
    if xs != [] {
      DedupeDistinct(xs[..|xs| - 1]);
      assert xs == xs[..|xs| - 1] + [xs[|xs| - 1]];
    }
  }

  // ---------- Size ----------

  /** The bytes of a path as a JSON string, quotes included. */
  type Quoted = string -> nat

  function Digits(n: nat): nat {
    if n < 10 then 1 else 1 + Digits(n / 10)
  }

  function SumOf(q: Quoted, xs: seq<string>): nat {
    if xs == [] then 0 else q(xs[0]) + 6 + SumOf(q, xs[1..])
  }

  /** An indented JSON array: two brackets, or one line for each item and one for the closing bracket. */
  function ListSize(q: Quoted, xs: seq<string>): nat {
    if xs == [] then 2 else 4 + SumOf(q, xs)
  }

  /** The indented record with its newline; the field names and punctuation take 116 bytes. */
  function Size(q: Quoted, m: Memory): nat {
    116 + Digits(m.revision) + (if m.last.Some? then q(m.last.value) else 4) + ListSize(q, m.recent) + ListSize(q, m.pinned)
  }

  predicate Fits(q: Quoted, m: Memory) {
    Size(q, m) <= MAX_BYTES
  }

  lemma {:induction false} SumSplits(q: Quoted, xs: seq<string>, n: nat)
    requires n <= |xs|
    ensures SumOf(q, xs) == SumOf(q, xs[..n]) + SumOf(q, xs[n..])
  {
    if n > 0 {
      SumSplits(q, xs[1..], n - 1);
      assert xs[1..][..n - 1] == xs[..n][1..];
      assert xs[1..][n - 1..] == xs[n..];
    } else {
      assert xs[n..] == xs;
    }
  }

  /** A shorter prefix takes fewer bytes. */
  lemma {:induction false} PrefixIsSmaller(q: Quoted, xs: seq<string>, n: nat)
    requires n <= |xs|
    ensures ListSize(q, xs[..n]) <= ListSize(q, xs)
  {
    SumSplits(q, xs, n);
  }

  lemma {:induction false} WithoutIsSmaller(q: Quoted, xs: seq<string>, x: string)
    ensures SumOf(q, Without(xs, x)) <= SumOf(q, xs)
    ensures x in xs ==> SumOf(q, Without(xs, x)) + q(x) + 6 <= SumOf(q, xs)
  {
    if xs != [] {
      WithoutIsSmaller(q, xs[1..], x);
      if xs[0] != x {
        var rest := Without(xs[1..], x);
        assert ([xs[0]] + rest)[1..] == rest;
      }
    }
  }

  lemma {:induction false} DigitsGrow(n: nat)
    ensures Digits(n + 1) <= Digits(n) + 1
  {
    if n >= 10 {
      if (n + 1) / 10 != n / 10 {
        DigitsGrow(n / 10);
        assert (n + 1) / 10 == n / 10 + 1;
      }
    }
  }

  // ---------- Trimming ----------

  /** The list before trimming: the last path first unless it is pinned, no repetition, at most 20. */
  function Bounded(last: Option<string>, paths: seq<string>, pinned: seq<string>): seq<string> {
    var first := if last.None? || last.value in pinned then [] else [last.value];
    var all := Dedupe(first + paths);
    if |all| > MAX_RECENT then all[..MAX_RECENT] else all
  }

  /** Drop paths from the end until the record fits, but never the first one. */
  function Trim(q: Quoted, m: Memory, xs: seq<string>): Option<seq<string>> {
    if |xs| > 1 && !Fits(q, m.(recent := xs)) then Trim(q, m, xs[..|xs| - 1])
    else if Fits(q, m.(recent := xs)) then Some(xs)
    else None
  }

  /** The longest prefix that fits, provided it keeps the first path; or nothing if there is none. */
  ghost predicate LongestFitting(q: Quoted, m: Memory, xs: seq<string>, r: Option<seq<string>>) {
    match r
    case Some(ys) =>
      && |ys| <= |xs| && ys == xs[..|ys|] && (xs != [] ==> ys != []) && Fits(q, m.(recent := ys))
      && (forall n :: |ys| < n <= |xs| ==> !Fits(q, m.(recent := xs[..n])))
    case None => forall n :: 0 <= n <= |xs| && (xs != [] ==> n > 0) ==> !Fits(q, m.(recent := xs[..n]))
  }

  lemma {:induction false} TrimIsLongest(q: Quoted, m: Memory, xs: seq<string>)
    ensures LongestFitting(q, m, xs, Trim(q, m, xs))
  {
    assert xs[..|xs|] == xs;
    if |xs| > 1 && !Fits(q, m.(recent := xs)) {
      var shorter := xs[..|xs| - 1];
      TrimIsLongest(q, m, shorter);
      assert forall n :: 0 <= n <= |shorter| ==> shorter[..n] == xs[..n];
    }
  }

  /** Bytes grow with the prefix, so a prefix fits exactly when it is no longer than the one kept. */
  lemma {:induction false} FitsUpToTheLongest(q: Quoted, m: Memory, xs: seq<string>, n: nat)
    requires 0 < n <= |xs|
    ensures Fits(q, m.(recent := xs[..n])) <==> Trim(q, m, xs).Some? && n <= |Trim(q, m, xs).value|
  {
    TrimIsLongest(q, m, xs);
    var r := Trim(q, m, xs);
    if r.Some? && n <= |r.value| {
      assert r.value[..n] == xs[..n];
      PrefixIsSmaller(q, r.value, n);
    }
  }

  method BoundedPaths(q: Quoted, last: Option<string>, paths: seq<string>, pinned: seq<string>, revision: nat)
    returns (r: Option<seq<string>>)
    ensures r == Trim(q, Memory(revision, last, [], pinned), Bounded(last, paths, pinned))
    ensures LongestFitting(q, Memory(revision, last, [], pinned), Bounded(last, paths, pinned), r)
  {
    var bounded := Bounded(last, paths, pinned);
    ghost var all := bounded;
    TrimIsLongest(q, Memory(revision, last, [], pinned), all);
    while |bounded| > 1 && !Fits(q, Memory(revision, last, bounded, pinned))
      invariant Trim(q, Memory(revision, last, [], pinned), bounded) == Trim(q, Memory(revision, last, [], pinned), all)
    {
      bounded := bounded[..|bounded| - 1];
    }
    r := if Fits(q, Memory(revision, last, bounded, pinned)) then Some(bounded) else None;
  }

  // ---------- The four updates ----------

  datatype Update = NoChange | TooLarge | PinLimit | Next(memory: Memory)

  datatype Operation = Remember(path: string) | Forget(path: string) | Pin(path: string) | Unpin(path: string)

  function Rebound(q: Quoted, revision: nat, last: Option<string>, paths: seq<string>, pinned: seq<string>): Update {
    var recent := Trim(q, Memory(revision, last, [], pinned), Bounded(last, paths, pinned));
    if recent.None? then TooLarge else Next(Memory(revision, last, recent.value, pinned))
  }

  function OnRemember(q: Quoted, m: Memory, path: string): Update {
    if path in m.pinned then
      if m.last == Some(path) then NoChange else Rebound(q, m.revision + 1, Some(path), m.recent, m.pinned)
    else Rebound(q, m.revision + 1, Some(path), [path] + Without(m.recent, path), m.pinned)
  }

  function OnForget(m: Memory, path: string): Update {
    var recent, pinned := Without(m.recent, path), Without(m.pinned, path);
    if |recent| == |m.recent| && |pinned| == |m.pinned| && m.last != Some(path) then NoChange
    else Next(Memory(m.revision + 1, if m.last == Some(path) then None else m.last, recent, pinned))
  }

  function OnPin(m: Memory, path: string): Update {
    if path in m.pinned then NoChange
    else if |m.pinned| >= MAX_PINNED then PinLimit
    else Next(Memory(m.revision + 1, m.last, Without(m.recent, path), [path] + m.pinned))
  }

  function OnUnpin(q: Quoted, m: Memory, path: string): Update {
    if path !in m.pinned then NoChange
    else Rebound(q, m.revision + 1, m.last, [path] + m.recent, Without(m.pinned, path))
  }

  function Apply(q: Quoted, m: Memory, op: Operation): Update {
    match op
    case Remember(path) => OnRemember(q, m, path)
    case Forget(path) => OnForget(m, path)
    case Pin(path) => OnPin(m, path)
    case Unpin(path) => OnUnpin(q, m, path)
  }

  datatype Decision = Keep(diagnostic: Option<Diagnostic>) | Write(next: Memory)

  /** What becomes of an update: an exhausted revision is reported before the update's own refusal. */
  function Decide(q: Quoted, m: Memory, u: Update): Decision {
    if u.NoChange? then Keep(None)
    else if m.revision == MAX_SAFE_INTEGER then Keep(Some(WriteFailed))
    else match u
         case NoChange => Keep(None)
         case PinLimit => Keep(Some(PinLimitReached))
         case TooLarge => Keep(Some(WriteFailed))
         case Next(next) => if Fits(q, next) then Write(next) else Keep(Some(WriteFailed))
  }

  // ---------- Updates keep the history valid ----------

  lemma {:induction false} PrefixIsValid(xs: seq<string>, n: nat, pinned: seq<string>)
    requires Distinct(xs) && Disjoint(xs, pinned) && n <= |xs|
    ensures Distinct(xs[..n]) && Disjoint(xs[..n], pinned)
  {
  }

  lemma {:induction false} HeadsAreDisjoint(last: Option<string>, paths: seq<string>, pinned: seq<string>, all: seq<string>)
    requires Disjoint(paths, pinned)
    requires forall y :: y in all <==> y in (if last.None? || last.value in pinned then [] else [last.value]) + paths
    ensures Disjoint(all, pinned)
  {
  }

  lemma {:induction false} BoundedIsValid(last: Option<string>, paths: seq<string>, pinned: seq<string>)
    requires Disjoint(paths, pinned)
    ensures var all := Bounded(last, paths, pinned); |all| <= MAX_RECENT && Distinct(all) && Disjoint(all, pinned)
    ensures last.Some? && last.value !in pinned ==>
              Bounded(last, paths, pinned) != [] && Bounded(last, paths, pinned)[0] == last.value
  {
    var first := if last.None? || last.value in pinned then [] else [last.value];
    var all := Dedupe(first + paths);
    DedupeDistinct(first + paths);
    HeadsAreDisjoint(last, paths, pinned, all);
    if |all| > MAX_RECENT {
      PrefixIsValid(all, MAX_RECENT, pinned);
    }
  }

  lemma {:induction false} ReboundIsValid(q: Quoted, revision: nat, last: Option<string>, paths: seq<string>, pinned: seq<string>)
    requires Disjoint(paths, pinned) && Distinct(pinned) && |pinned| <= MAX_PINNED && revision <= MAX_SAFE_INTEGER
    ensures var u := Rebound(q, revision, last, paths, pinned); u.Next? ==> Valid(u.memory)
  {
    var m := Memory(revision, last, [], pinned);
    var all := Bounded(last, paths, pinned);
    TrimIsLongest(q, m, all);
    var r := Trim(q, m, all);
    if r.Some? {
      BoundedIsValid(last, paths, pinned);
      PrefixIsValid(all, |r.value|, pinned);
    }
  }

  /** Every update that is written leaves a valid history of the next revision within 64 KiB. */
  lemma {:induction false} UpdatesKeepValid(q: Quoted, m: Memory, op: Operation)
    requires Valid(m)
    ensures match Decide(q, m, Apply(q, m, op))
            case Write(next) => Valid(next) && Fits(q, next) && next.revision == m.revision + 1
            case Keep(d) => d.None? ==> Apply(q, m, op).NoChange?
  {
    if m.revision < MAX_SAFE_INTEGER {
      match op {
        case Remember(path) => RememberIsValid(q, m, path);
        case Forget(path) => ForgetIsValid(m, path);
        case Pin(path) => PinIsValid(m, path);
        case Unpin(path) => UnpinIsValid(q, m, path);
      }
      ReboundRevision(q, m, op);
    }
  }

  lemma {:induction false} ReboundRevision(q: Quoted, m: Memory, op: Operation)
    ensures Apply(q, m, op).Next? ==> Apply(q, m, op).memory.revision == m.revision + 1
  {
  }

  lemma {:induction false} RememberIsValid(q: Quoted, m: Memory, path: string)
    requires Valid(m) && m.revision < MAX_SAFE_INTEGER
    ensures OnRemember(q, m, path).Next? ==> Valid(OnRemember(q, m, path).memory)
  {
    ReboundIsValid(q, m.revision + 1, Some(path), m.recent, m.pinned);
    if path !in m.pinned {
      ReboundIsValid(q, m.revision + 1, Some(path), [path] + Without(m.recent, path), m.pinned);
    }
  }

  lemma {:induction false} ForgetIsValid(m: Memory, path: string)
    requires Valid(m) && m.revision < MAX_SAFE_INTEGER
    ensures OnForget(m, path).Next? ==> Valid(OnForget(m, path).memory)
  {
    WithoutDistinct(m.recent, path);
    WithoutDistinct(m.pinned, path);
  }

  lemma {:induction false} PinIsValid(m: Memory, path: string)
    requires Valid(m) && m.revision < MAX_SAFE_INTEGER
    ensures OnPin(m, path).Next? ==> Valid(OnPin(m, path).memory)
  {
    WithoutDistinct(m.recent, path);
    if path !in m.pinned {
      DistinctCons(path, m.pinned);
    }
  }

  lemma {:induction false} UnpinIsValid(q: Quoted, m: Memory, path: string)
    requires Valid(m) && m.revision < MAX_SAFE_INTEGER
    ensures OnUnpin(q, m, path).Next? ==> Valid(OnUnpin(q, m, path).memory)
  {
    WithoutDistinct(m.pinned, path);
    ReboundIsValid(q, m.revision + 1, m.last, [path] + m.recent, Without(m.pinned, path));
  }

  /** Forgetting a path never fails for want of space. */
  lemma {:induction false} ForgetFits(q: Quoted, m: Memory, path: string)
    requires Valid(m) && Fits(q, m) && m.revision < MAX_SAFE_INTEGER && Quotes(q)
    ensures Decide(q, m, OnForget(m, path)) == if OnForget(m, path).NoChange? then Keep(None) else Write(OnForget(m, path).memory)
  {
    DigitsGrow(m.revision);
    WithoutIsSmaller(q, m.recent, path);
    WithoutIsSmaller(q, m.pinned, path);
    assert q(path) >= 2;
    WithoutDistinct(m.recent, path);
    WithoutDistinct(m.pinned, path);
  }

  // ---------- What unpinning keeps ----------

  /** Kept or not comes down to whether the last path and the unpinned one fit together. */
  lemma {:induction false} UnpinKeepsWhatFits(q: Quoted, m: Memory, path: string)
    requires Valid(m) && OnUnpin(q, m, path).Next?
    ensures var next := OnUnpin(q, m, path).memory;
            && path !in next.pinned
            && (path in next.recent <==>
                  m.last.None? || m.last.value == path || m.last.value in m.pinned
                  || Fits(q, Memory(m.revision + 1, m.last, [m.last.value, path], Without(m.pinned, path))))
  {
    var pinned := Without(m.pinned, path);
    var base := Memory(m.revision + 1, m.last, [], pinned);
    var all := Bounded(m.last, [path] + m.recent, pinned);
    TrimIsLongest(q, base, all);
    var kept := Trim(q, base, all).value;
    UnpinOrder(m, path);
    if m.last.None? || m.last.value == path || m.last.value in m.pinned {
      assert kept[0] == all[0] == path;
    } else {
      assert all[..2] == [m.last.value, path];
      FitsUpToTheLongest(q, base, all, 2);
      if |kept| >= 2 {
        assert kept[1] == all[1] == path;
      } else {
        assert kept == [m.last.value];
      }
    }
  }

  /** A quoted path takes at least its two quotes. */
  ghost predicate Quotes(q: Quoted) {
    forall p :: q(p) >= 2
  }

  lemma {:induction false} SumWithout(q: Quoted, xs: seq<string>, x: string)
    requires Distinct(xs) && x in xs
    ensures SumOf(q, Without(xs, x)) + q(x) + 6 == SumOf(q, xs)
  {
    if xs[0] != x {
      SumWithout(q, xs[1..], x);
      var rest := Without(xs[1..], x);
      assert ([xs[0]] + rest)[1..] == rest;
    } else {
      assert x !in xs[1..];
    }
  }

  lemma {:induction false} SumIsAtLeast(q: Quoted, xs: seq<string>)
    requires Quotes(q)
    ensures SumOf(q, xs) >= 8 * |xs|
  {
    if xs != [] {
      SumIsAtLeast(q, xs[1..]);
    }
  }

  /** The bytes of the last path and the unpinned one alone, against those of the history before. */
  lemma {:induction false} UnpinnedPairSize(q: Quoted, m: Memory, path: string)
    requires Valid(m) && Quotes(q) && path in m.pinned
    requires m.last.Some? && m.last.value != path && m.last.value !in m.pinned
    ensures var pair := Memory(m.revision + 1, m.last, [m.last.value, path], Without(m.pinned, path));
            var growth := Digits(m.revision + 1) - Digits(m.revision);
            && (|m.recent| == 1 && |m.pinned| > 1 ==> Size(q, pair) == Size(q, m) + growth)
            && (|m.recent| == 1 && |m.pinned| == 1 ==> Size(q, pair) == Size(q, m) + growth - 2)
            && (|m.recent| > 1 ==> Size(q, pair) <= Size(q, m) + growth - 8)
  {
    var last := m.last.value;
    SumWithout(q, m.recent, last);
    SumWithout(q, m.pinned, path);
    WithoutDistinct(m.recent, last);
    WithoutDistinct(m.pinned, path);
    SumIsAtLeast(q, Without(m.recent, last));
    assert [last, path][1..] == [path] && [path][1..] == [];
    assert SumOf(q, [path]) == q(path) + 6;
    assert SumOf(q, [last, path]) == q(last) + 6 + q(path) + 6;
  }

  /**
   An unpinned path is always kept, except from a history that is exactly full, holds one
   recent path, which is the last one, and other pins, and whose revision gains a digit.
   */
  lemma {:induction false} UnpinKeepsThePathIff(q: Quoted, m: Memory, path: string)
    requires Valid(m) && Fits(q, m) && Quotes(q) && OnUnpin(q, m, path).Next?
    ensures path !in OnUnpin(q, m, path).memory.pinned
    ensures path !in OnUnpin(q, m, path).memory.recent <==>
            && m.last.Some? && m.recent == [m.last.value] && |m.pinned| > 1
            && Size(q, m) == MAX_BYTES && Digits(m.revision + 1) == Digits(m.revision) + 1
  {
    UnpinKeepsWhatFits(q, m, path);
    DigitsGrow(m.revision);
    DigitsMonotone(m.revision);
    if m.last.Some? && m.last.value != path && m.last.value !in m.pinned {
      UnpinnedPairSize(q, m, path);
      assert |m.recent| >= 1;
      assert |m.recent| == 1 ==> m.recent[0] == m.last.value;
    }
  }

  lemma {:induction false} DigitsMonotone(n: nat)
    ensures Digits(n) <= Digits(n + 1)
  {
    if n >= 10 && (n + 1) / 10 != n / 10 {
      DigitsMonotone(n / 10);
      assert (n + 1) / 10 == n / 10 + 1;
    }
  }

  /** How many bytes a path of plain characters takes. */
  const PlainQuoted: Quoted := p => |p| + 2

  function LongPath(n: nat): (p: string)
    ensures |p| == n
  {
    seq(n, _ => 'c')
  }

  /** A history that is exactly full. */
  function FullHistory(): Memory {
    Memory(9, Some("a"), ["a"], ["b", LongPath(MAX_BYTES - 154)])
  }

  lemma {:induction false} FullHistoryIsFull()
    ensures var m := FullHistory();
            && Valid(m) && Size(PlainQuoted, m) == MAX_BYTES && Digits(m.revision + 1) == Digits(m.revision) + 1
            && Size(PlainQuoted, Memory(10, m.last, ["a"], Without(m.pinned, "b"))) <= MAX_BYTES
  {
    var m := FullHistory();
    var long := m.pinned[1];
    assert "b"[0] == 'b' && "a"[0] == 'a' && |long| > 1;
    assert m.pinned[1..] == [long] && [long][1..] == [] && m.recent[1..] == [];
    assert SumOf(PlainQuoted, [long]) == |long| + 8;
    assert Without([long], "b") == [long];
    assert Without(m.pinned, "b") == [long];
    assert Digits(1) == 1 && Digits(10) == 2;
  }

  /** From it, unpinning succeeds, and the path is in neither list. */
  lemma {:induction false} UnpinCanDropThePath()
    ensures var m := FullHistory();
            var u := OnUnpin(PlainQuoted, m, "b");
            && Valid(m) && Fits(PlainQuoted, m) && "b" in m.pinned
            && u.Next? && Decide(PlainQuoted, m, u) == Write(u.memory)
            && "b" !in u.memory.pinned && "b" !in u.memory.recent
  {
    var m := FullHistory();
    FullHistoryIsFull();
    assert "b" in m.pinned;
    var pinned := Without(m.pinned, "b");
    var all := Bounded(m.last, ["b"] + m.recent, pinned);
    UnpinOrder(m, "b");
    TrimIsLongest(PlainQuoted, Memory(10, m.last, [], pinned), all);
    assert all[..1] == ["a"];
    assert Fits(PlainQuoted, Memory(10, m.last, [], pinned).(recent := all[..1]));
    UnpinKeepsThePathIff(PlainQuoted, m, "b");
  }

  /** Where the unpinned path stands before trimming. */
  lemma {:induction false} UnpinOrder(m: Memory, path: string)
    requires Valid(m) && path in m.pinned
    ensures var all := Bounded(m.last, [path] + m.recent, Without(m.pinned, path));
            if m.last.None? || m.last.value == path || m.last.value in m.pinned then |all| >= 1 && all[0] == path
            else |all| >= 2 && all[0] == m.last.value && all[1] == path
  {
    var pinned := Without(m.pinned, path);
    var first := if m.last.None? || m.last.value in pinned then [] else [m.last.value];
    var xs := first + ([path] + m.recent);
    if m.last.Some? && m.last.value != path && m.last.value !in m.pinned {
      DedupeTwo(xs, m.last.value, path);
    } else {
      DedupeDistinct(xs);
    }
  }

  lemma {:induction false} DedupeTwo(xs: seq<string>, a: string, b: string)
    requires |xs| >= 2 && xs[0] == a && xs[1] == b && a != b
    ensures |Dedupe(xs)| >= 2 && Dedupe(xs)[0] == a && Dedupe(xs)[1] == b
  {
    assert xs[..2] == [a, b];
    DedupeDistinct([a, b]);
    DedupePrefix(xs, 2);
    assert Dedupe(xs)[..2][0] == a && Dedupe(xs)[..2][1] == b;
  }

  lemma {:induction false} DedupePrefix(xs: seq<string>, n: nat)
    requires n <= |xs|
    ensures |Dedupe(xs[..n])| <= |Dedupe(xs)| && Dedupe(xs)[..|Dedupe(xs[..n])|] == Dedupe(xs[..n])
    decreases |xs|
  {
    if n == |xs| {
      assert xs[..n] == xs;
    } else {
      assert xs[..|xs| - 1][..n] == xs[..n];
      DedupePrefix(xs[..|xs| - 1], n);
    }
  }

  // ---------- Stored formats ----------

  predicate ValidV1(revision: nat, last: Option<string>, recent: seq<string>) {
    && revision <= MAX_SAFE_INTEGER && |recent| <= MAX_RECENT && Distinct(recent)
    && (last.Some? ==> last.value in recent)
  }

  /** Only the last path survives the migration of the oldest format, in canonical form. */
  function MigratedLegacy(q: Quoted, canonical: string -> string, last: Option<string>): Answer {
    var path := if last.Some? then Some(canonical(last.value)) else None;
    var recent := Trim(q, Memory(0, path, [], []), Bounded(path, [], []));
    if recent.None? then Answer(Empty, Some(CorruptHistory)) else Answer(Memory(0, path, recent.value, []), None)
  }

  function Read(q: Quoted, canonical: string -> string, s: Stored): Answer {
    match s
    case Missing => Answer(Empty, None)
    case V2(m, bytes) =>
      if Valid(m) && bytes <= MAX_BYTES && Fits(q, m) then Answer(m, None) else Answer(Empty, Some(CorruptHistory))
    case V1(revision, last, recent, bytes) =>
      if ValidV1(revision, last, recent) && bytes <= MAX_BYTES then Answer(Memory(revision, last, recent, []), None)
      else Answer(Empty, Some(CorruptHistory))
    case Legacy(last, recent, bytes) =>
      if |recent| <= MAX_LEGACY_RECENT && bytes <= MAX_LEGACY_BYTES then MigratedLegacy(q, canonical, last)
      else Answer(Empty, Some(CorruptHistory))
    case Corrupt(_) => Answer(Empty, Some(CorruptHistory))
  }

  /** All formats read as histories with the same list invariants; only version 1 is not checked against 64 KiB again. */
  lemma {:induction false} EveryFormatReadsValid(q: Quoted, canonical: string -> string, s: Stored)
    ensures Valid(Read(q, canonical, s).memory)
    ensures Size(q, Empty) <= MAX_BYTES
    ensures Fits(q, Read(q, canonical, s).memory) <==>
            !(s.V1? && Read(q, canonical, s).diagnostic.None? && V1Size(q, s.revision, s.last, s.recent) > MAX_BYTES - 30)
  {
    assert Size(q, Empty) == 125;
    if s.Legacy? {
      var path := if s.last.Some? then Some(canonical(s.last.value)) else None;
      ReboundIsValid(q, 0, path, [], []);
      TrimIsLongest(q, Memory(0, path, [], []), Bounded(path, [], []));
    }
  }

  /** The size of a version 1 record as its writer laid it out. */
  function V1Size(q: Quoted, revision: nat, last: Option<string>, recent: seq<string>): nat {
    88 + Digits(revision) + (if last.Some? then q(last.value) else 4) + ListSize(q, recent)
  }

  /** A version 1 file within 64 KiB can migrate to a record that is not. */
  lemma {:induction false} V1CanOutgrow(canonical: string -> string)
    ensures var path := LongPath(MAX_BYTES - 112);
            var bytes := V1Size(PlainQuoted, 0, None, [path]);
            && bytes <= MAX_BYTES
            && Read(PlainQuoted, canonical, V1(0, None, [path], bytes)) == Answer(Memory(0, None, [path], []), None)
            && !Fits(PlainQuoted, Memory(0, None, [path], []))
  {
    var path := LongPath(MAX_BYTES - 112);
    assert SumOf(PlainQuoted, [path]) == |path| + 8;
  }

  // ---------- What the updates leave in the lists ----------

  /** The order remembering asks for: the path first, unless it is pinned, then the others as they were. */
  function Remembered(m: Memory, path: string): seq<string> {
    if path in m.pinned then m.recent else [path] + Without(m.recent, path)
  }

  /** Remembering puts the path first, then as much of the old order as fits; a pinned path only becomes the last one. */
  lemma {:induction false} RememberContents(q: Quoted, m: Memory, path: string)
    requires Valid(m) && OnRemember(q, m, path).Next?
    ensures var next := OnRemember(q, m, path).memory;
            && next.last == Some(path) && next.pinned == m.pinned
            && LongestFitting(q, Memory(m.revision + 1, Some(path), [], m.pinned), FirstTwenty(Remembered(m, path)), Some(next.recent))
  {
    RememberOrder(m, path);
    ReboundIsLongest(q, m.revision + 1, Some(path), Remembered(m, path), m.pinned);
  }

  lemma {:induction false} ReboundIsLongest(q: Quoted, revision: nat, last: Option<string>, paths: seq<string>, pinned: seq<string>)
    requires Rebound(q, revision, last, paths, pinned).Next?
    ensures var next := Rebound(q, revision, last, paths, pinned).memory;
            && next == Memory(revision, last, next.recent, pinned)
            && LongestFitting(q, Memory(revision, last, [], pinned), Bounded(last, paths, pinned), Some(next.recent))
  {
    TrimIsLongest(q, Memory(revision, last, [], pinned), Bounded(last, paths, pinned));
  }

  function FirstTwenty(xs: seq<string>): seq<string> {
    if |xs| > MAX_RECENT then xs[..MAX_RECENT] else xs
  }

  lemma {:induction false} RememberOrder(m: Memory, path: string)
    requires Valid(m)
    ensures Bounded(Some(path), Remembered(m, path), m.pinned) == FirstTwenty(Remembered(m, path))
  {
    if path in m.pinned {
      PinnedOrder(m, path);
    } else {
      WithoutDistinct(m.recent, path);
      FreshOrder(path, Without(m.recent, path), m.pinned);
    }
  }

  lemma {:induction false} PinnedOrder(m: Memory, path: string)
    requires Valid(m) && path in m.pinned
    ensures Bounded(Some(path), m.recent, m.pinned) == m.recent
  {
    assert [] + m.recent == m.recent;
    DedupeDistinct(m.recent);
  }

  lemma {:induction false} FreshOrder(path: string, others: seq<string>, pinned: seq<string>)
    requires path !in others && Distinct(others) && path !in pinned
    ensures Bounded(Some(path), [path] + others, pinned) == FirstTwenty([path] + others)
  {
    DedupeHead(path, others);
  }

  /** Repeating the first value adds nothing. */
  lemma {:induction false} DedupeHead(x: string, xs: seq<string>)
    requires x !in xs && Distinct(xs)
    ensures Dedupe([x] + ([x] + xs)) == [x] + xs
    decreases |xs|
  {
    var all := [x] + ([x] + xs);
    if xs == [] {
      assert all == [x, x] && all[..1] == [x];
      DedupeDistinct([x]);
    } else {
      var n := |xs| - 1;
      assert all[..|all| - 1] == [x] + ([x] + xs[..n]);
      DedupeHead(x, xs[..n]);
      assert xs[n] !in xs[..n] && xs[n] != x;
      assert xs == xs[..n] + [xs[n]];
    }
  }

  /** Forgetting removes one path from wherever it is; pinning moves or adds one; neither touches any other path. */
  lemma {:induction false} ForgetAndPinContents(m: Memory, path: string, other: string)
    requires Valid(m) && other != path
    ensures OnForget(m, path).Next? ==>
              var next := OnForget(m, path).memory;
              && path !in next.recent && path !in next.pinned && next.last != Some(path)
              && (other in next.recent <==> other in m.recent) && (other in next.pinned <==> other in m.pinned)
    ensures OnPin(m, path).Next? ==>
              var next := OnPin(m, path).memory;
              && path !in next.recent && next.pinned[0] == path && next.pinned[1..] == m.pinned && next.last == m.last
              && (other in next.recent <==> other in m.recent)
  {
  }

  // ---------- The file ----------

  /** What the replacement leaves in the file, whether or not it throws. */
  datatype Replacement = Untouched | Replaced | Disturbed(left: Stored)

  /** What the file system does during one update. */
  datatype Io = Io(directory: bool, lock: bool, replacement: Replacement, threw: bool)

  function AfterReplacement(before: Stored, next: Stored, r: Replacement): Stored {
    match r
    case Untouched => before
    case Replaced => next
    case Disturbed(left) => left
  }

  class HistoryFile {
    var stored: Stored
    const q: Quoted
    const canonical: string -> string

    constructor (q: Quoted, canonical: string -> string)
      ensures stored == Missing && this.q == q && this.canonical == canonical
    {
      this.stored, this.q, this.canonical := Missing, q, canonical;
    }

    method ComputeUpdate(m: Memory, op: Operation) returns (u: Update)
      ensures u == Apply(q, m, op)
    {
      match op {
        case Remember(path) =>
          if path in m.pinned && m.last == Some(path) {
            return NoChange;
          }
          var paths := if path in m.pinned then m.recent else [path] + Without(m.recent, path);
          var recent := BoundedPaths(q, Some(path), paths, m.pinned, m.revision + 1);
          u := if recent.None? then TooLarge else Next(Memory(m.revision + 1, Some(path), recent.value, m.pinned));
        case Forget(path) => u := OnForget(m, path);
        case Pin(path) => u := OnPin(m, path);
        case Unpin(path) =>
          if path !in m.pinned {
            return NoChange;
          }
          var pinned := Without(m.pinned, path);
          var recent := BoundedPaths(q, m.last, [path] + m.recent, pinned, m.revision + 1);
          u := if recent.None? then TooLarge else Next(Memory(m.revision + 1, m.last, recent.value, pinned));
      }
    }

    /**
     Only a decided write touches the file, and then the file is as the replacement leaves it;
     an answer without a diagnostic is what the file says.
     */
    method UpdateMemory(op: Operation, io: Io) returns (a: Answer)
      modifies this
      ensures var current := Read(q, canonical, old(stored));
              var decision := Decide(q, current.memory, Apply(q, current.memory, op));
              stored == if io.directory && io.lock && current.diagnostic.None? && decision.Write?
                        then AfterReplacement(old(stored), V2(decision.next, Size(q, decision.next)), io.replacement) else old(stored)
      ensures var current := Read(q, canonical, old(stored));
              var decision := Decide(q, current.memory, Apply(q, current.memory, op));
              if !io.directory then a == Answer(Empty, Some(WriteFailed))
              else if !io.lock then a == Answer(current.memory, Some(LockTimeout))
              else if current.diagnostic.Some? then a == current
              else if decision.Keep? then a == Answer(current.memory, decision.diagnostic)
              else if !io.threw && io.replacement.Replaced? then a == Answer(decision.next, None)
              else a == Answer(current.memory, Some(WriteFailed)) || (!io.threw && a == Answer(decision.next, None))
      ensures Valid(a.memory)
      ensures a.diagnostic.None? ==> a == Read(q, canonical, stored)
      ensures a.diagnostic.Some? && io.directory ==> a.memory == Read(q, canonical, old(stored)).memory
    {
      EveryFormatReadsValid(q, canonical, stored);
      var current := Read(q, canonical, stored);
      if !io.directory {
        return Answer(Empty, Some(WriteFailed));
      }
      if !io.lock {
        return Answer(current.memory, Some(LockTimeout));
      }
      if current.diagnostic.Some? {
        return current;
      }
      var u := ComputeUpdate(current.memory, op);
      UpdatesKeepValid(q, current.memory, op);
      var decision := Decide(q, current.memory, u);
      if decision.Keep? {
        return Answer(current.memory, decision.diagnostic);
      }
      stored := AfterReplacement(stored, V2(decision.next, Size(q, decision.next)), io.replacement);
      if io.threw {
        return Answer(current.memory, Some(WriteFailed));
      }
      var observed := Read(q, canonical, stored);
      if observed.diagnostic.None? && observed.memory == decision.next {
        return observed;
      }
      return Answer(current.memory, Some(WriteFailed));
    }
  }
}
