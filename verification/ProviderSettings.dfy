/**
 Normalising stored provider settings against the provider definitions: entries
 are cleaned and collected by id, missing definitions get default entries, and
 all are sorted and numbered. Collections keep their insertion order. Values of
 the wrong type in the stored document appear here as absent or as Other.
 */
module ProviderSettings {
  import opened Wrappers

  // ---------- Data ----------

  const MAX_SAFE_INTEGER: int := 0x1F_FFFF_FFFF_FFFF

  datatype Capacity = Healthy | Degraded | Capped | Unknown

  datatype Definition = Definition(id: string, harnessId: Option<string>, origin: Option<string>)

  datatype Entry = Entry(
    id: string,
    harnessId: Option<string>,
    origin: Option<string>,
    model: Option<string>,
    enabled: bool,
    fallbackOrder: int,
    defaultState: Capacity,
    overrideState: Option<Capacity>)

  datatype Default = Default(enabled: bool, fallbackOrder: nat, defaultState: Capacity)

  datatype RawText = Absent | Text(text: string) | Other

  datatype RawEntry = RawEntry(
    id: RawText,
    model: RawText,
    enabled: Option<bool>,
    fallbackOrder: Option<int>,
    defaultState: Option<Capacity>,
    overrideState: Option<Capacity>,
    peonModel: RawText)

  datatype RawSelection = RawSelection(provider: RawText, model: RawText, ollamaBaseUrl: RawText, reasoningEffort: RawText)

  datatype Raw = Raw(
    version2: bool,
    revision: Option<int>,
    peonSelection: Option<RawSelection>,
    peonModel: RawText,
    defaultPeonModel: RawText,
    ollamaBaseUrl: RawText,
    entries: seq<RawEntry>)

  datatype Selection = Selection(provider: string, model: string, reasoningEffort: Option<string>, ollamaBaseUrl: Option<string>)

  datatype Settings = Settings(
    revision: nat,
    peonSelection: Option<Selection>,
    peonModel: Option<string>,
    ollamaBaseUrl: string,
    providers: seq<Entry>)

  /** What normalisation depends on besides the document. */
  datatype Context = Context(
    isProviderId: string -> bool,
    definitions: seq<Definition>,
    defaultOf: string -> Option<Default>,
    trim: string -> string,
    parseUrl: string -> Option<string>,
    defaultUrl: string,
    before: (string, string) -> bool)

  // ---------- Definitions and entries by id ----------

  function DefinitionFor(defs: seq<Definition>, id: string): Option<Definition> {
    if defs == [] then None
    else if defs[|defs| - 1].id == id then Some(defs[|defs| - 1])
    else DefinitionFor(defs[..|defs| - 1], id)
  }

  /** Valid ids, each at its first place. */
  function ValidIds(cx: Context, defs: seq<Definition>): (r: seq<string>)
    ensures forall id :: id in r <==> cx.isProviderId(id) && exists d :: d in defs && d.id == id
  {
    if defs == [] then [] else
    var rest, last := defs[..|defs| - 1], defs[|defs| - 1];
    assert defs == rest + [last];
    assert forall d :: d in defs <==> d in rest || d == last;
    if cx.isProviderId(last.id) && last.id !in ValidIds(cx, rest) then ValidIds(cx, rest) + [last.id] else ValidIds(cx, rest)
  }

  function Ids(es: seq<Entry>): seq<string> {
    seq(|es|, i requires 0 <= i < |es| => es[i].id)
  }

  predicate Once(ids: seq<string>) {
    forall i, j :: 0 <= i < j < |ids| ==> ids[i] != ids[j]
  }

  /** Replace the entry with the same id, or append. */
  function Put(es: seq<Entry>, e: Entry): (r: seq<Entry>)
    ensures |es| <= |r| <= |es| + 1 && |r| > 0
  {
    if es == [] then [e]
    else if es[0].id == e.id then [e] + es[1..]
    else [es[0]] + Put(es[1..], e)
  }

  // ---------- One entry ----------

  function Clean(cx: Context, t: RawText): Option<string> {
    if t.Text? && cx.trim(t.text) != "" then Some(cx.trim(t.text)) else None
  }

  function Clamp(v: Option<int>, fallback: int): int {
    if v.None? then fallback else if v.value < 0 then 0 else if v.value > MAX_SAFE_INTEGER then MAX_SAFE_INTEGER else v.value
  }

  /** Harness and origin come from the definition, and only for ids without a default entry. */
  function HarnessOf(cx: Context, id: string): Option<string> {
    var d := DefinitionFor(cx.definitions, id);
    if d.Some? && cx.defaultOf(id).None? then d.value.harnessId else None
  }

  function OriginOf(cx: Context, id: string): Option<string> {
    var d := DefinitionFor(cx.definitions, id);
    if d.Some? && cx.defaultOf(id).None? then d.value.origin else None
  }

  function NormalizeEntry(cx: Context, raw: RawEntry): Option<Entry> {
    if !raw.id.Text? || raw.id.text !in ValidIds(cx, cx.definitions) then None else
    var id := raw.id.text;
    var d := cx.defaultOf(id);
    Some(Entry(id, HarnessOf(cx, id), OriginOf(cx, id), Clean(cx, raw.model),
               if raw.enabled.Some? then raw.enabled.value else if d.Some? then d.value.enabled else true,
               Clamp(raw.fallbackOrder, if d.Some? then d.value.fallbackOrder else MAX_SAFE_INTEGER),
               if raw.defaultState.Some? then raw.defaultState.value else Unknown,
               raw.overrideState))
  }

  function DefaultEntry(cx: Context, id: string, order: int): Entry {
    var d := cx.defaultOf(id);
    Entry(id, HarnessOf(cx, id), OriginOf(cx, id), None,
          if d.Some? then d.value.enabled else true,
          if d.Some? then d.value.fallbackOrder else order,
          if d.Some? then d.value.defaultState else Unknown, None)
  }

  // ---------- All entries ----------

  function Collect(cx: Context, es: seq<Entry>, raws: seq<RawEntry>): seq<Entry>
    decreases |raws|
  {
    if raws == [] then es else
    var e := NormalizeEntry(cx, raws[0]);
    Collect(cx, if e.Some? then Put(es, e.value) else es, raws[1..])
  }

  /** Double addition of one, for the integers up to 2 to the 53rd. */
  function Increment(n: int): int {
    if n <= MAX_SAFE_INTEGER then n + 1 else n
  }

  function Highest(es: seq<Entry>): int {
    if es == [] then -1 else
    var h := Highest(es[..|es| - 1]);
    if es[|es| - 1].fallbackOrder > h then es[|es| - 1].fallbackOrder else h
  }

  function Fill(cx: Context, es: seq<Entry>, ids: seq<string>, next: int): seq<Entry>
    decreases |ids|
  {
    if ids == [] then es
    else if ids[0] in Ids(es) then Fill(cx, es, ids[1..], next)
    else Fill(cx, es + [DefaultEntry(cx, ids[0], next)], ids[1..], if cx.defaultOf(ids[0]).Some? then next else Increment(next))
  }

  predicate Less(cx: Context, a: Entry, b: Entry) {
    a.fallbackOrder < b.fallbackOrder || (a.fallbackOrder == b.fallbackOrder && cx.before(a.id, b.id))
  }

  function Insert(cx: Context, e: Entry, es: seq<Entry>): seq<Entry> {
    if es == [] then [e]
    else if Less(cx, e, es[|es| - 1]) then Insert(cx, e, es[..|es| - 1]) + [es[|es| - 1]]
    else es + [e]
  }

  /** A stable sort by order, then by id. */
  function Sort(cx: Context, es: seq<Entry>): seq<Entry> {
    if es == [] then [] else Insert(cx, es[|es| - 1], Sort(cx, es[..|es| - 1]))
  }

  function Renumber(es: seq<Entry>): seq<Entry> {
    seq(|es|, i requires 0 <= i < |es| => es[i].(fallbackOrder := i))
  }

  function Gathered(cx: Context, raws: seq<RawEntry>): seq<Entry> {
    var es := Collect(cx, [], raws);
    Fill(cx, es, ValidIds(cx, cx.definitions), Increment(Highest(es)))
  }

  function NormalizeProviders(cx: Context, raws: seq<RawEntry>): seq<Entry> {
    Renumber(Sort(cx, Gathered(cx, raws)))
  }

  // ---------- The output lists the valid ids once each, numbered from zero ----------

  lemma {:induction false} IdsAppend(es: seq<Entry>, e: Entry)
    ensures Ids(es + [e]) == Ids(es) + [e.id]
  {
  }

  lemma {:induction false} IdsCons(x: Entry, rest: seq<Entry>)
    ensures Ids([x] + rest) == [x.id] + Ids(rest)
  {
  }

  lemma {:induction false} PutIds(es: seq<Entry>, e: Entry)
    ensures Ids(Put(es, e)) == if e.id in Ids(es) then Ids(es) else Ids(es) + [e.id]
  {
    if es == [] {
      assert [e] + [] == [e];
      IdsCons(e, []);
    } else {
      var x, rest := es[0], es[1..];
      assert es == [x] + rest;
      IdsCons(x, rest);
      if x.id == e.id {
        IdsCons(e, rest);
      } else {
        PutIds(rest, e);
        IdsCons(x, Put(rest, e));
        assert [x.id] + (Ids(rest) + [e.id]) == [x.id] + Ids(rest) + [e.id];
      }
    }
  }

  lemma {:induction false} CollectIds(cx: Context, es: seq<Entry>, raws: seq<RawEntry>)
    requires Once(Ids(es)) && forall id :: id in Ids(es) ==> id in ValidIds(cx, cx.definitions)
    ensures Once(Ids(Collect(cx, es, raws))) && forall id :: id in Ids(Collect(cx, es, raws)) ==> id in ValidIds(cx, cx.definitions)
    decreases |raws|
  {
    if raws != [] {
      var e := NormalizeEntry(cx, raws[0]);
      if e.Some? {
        PutIds(es, e.value);
      }
      CollectIds(cx, if e.Some? then Put(es, e.value) else es, raws[1..]);
    }
  }

  lemma {:induction false} FillIds(cx: Context, es: seq<Entry>, ids: seq<string>, next: int)
    requires Once(Ids(es))
    ensures var r := Fill(cx, es, ids, next);
            Once(Ids(r)) && forall id :: id in Ids(r) <==> id in Ids(es) || id in ids
    decreases |ids|
  {
    if ids != [] {
      assert ids == [ids[0]] + ids[1..];
      if ids[0] in Ids(es) {
        FillIds(cx, es, ids[1..], next);
      } else {
        var e := DefaultEntry(cx, ids[0], next);
        IdsAppend(es, e);
        FillIds(cx, es + [e], ids[1..], if cx.defaultOf(ids[0]).Some? then next else Increment(next));
      }
    }
  }

  lemma {:induction false} InsertPermutes(cx: Context, e: Entry, es: seq<Entry>)
    ensures multiset(Insert(cx, e, es)) == multiset(es) + multiset{e}
  {
    if es != [] {
      assert es == es[..|es| - 1] + [es[|es| - 1]];
      if Less(cx, e, es[|es| - 1]) {
        InsertPermutes(cx, e, es[..|es| - 1]);
      }
    }
  }

  lemma {:induction false} SortPermutes(cx: Context, es: seq<Entry>)
    ensures multiset(Sort(cx, es)) == multiset(es)
  {
    if es != [] {
      assert es == es[..|es| - 1] + [es[|es| - 1]];
      SortPermutes(cx, es[..|es| - 1]);
      InsertPermutes(cx, es[|es| - 1], Sort(cx, es[..|es| - 1]));
    }
  }

  lemma {:induction false} OnceLast(es: seq<Entry>)
    requires es != [] && Once(Ids(es))
    ensures var rest, last := es[..|es| - 1], es[|es| - 1];
            && es == rest + [last] && Ids(es) == Ids(rest) + [last.id]
            && Once(Ids(rest)) && last.id !in Ids(rest)
  {
    var rest, last := es[..|es| - 1], es[|es| - 1];
    assert es == rest + [last];
    IdsAppend(rest, last);
    forall i | 0 <= i < |rest|
      ensures Ids(rest)[i] != last.id
    {
      assert Ids(es)[i] == Ids(rest)[i] && Ids(es)[|rest|] == last.id;
    }
    assert Ids(rest) == Ids(es)[..|rest|];
  }

  lemma {:induction false} InsertIds(cx: Context, e: Entry, es: seq<Entry>)
    requires Once(Ids(es)) && e.id !in Ids(es)
    ensures Once(Ids(Insert(cx, e, es))) && forall id :: id in Ids(Insert(cx, e, es)) <==> id in Ids(es) || id == e.id
  {
    IdsAppend(es, e);
    if es == [] {
      assert es + [e] == [e];
    } else if Less(cx, e, es[|es| - 1]) {
      var rest, last := es[..|es| - 1], es[|es| - 1];
      OnceLast(es);
      InsertIds(cx, e, rest);
      IdsAppend(Insert(cx, e, rest), last);
    }
  }

  lemma {:induction false} SortIds(cx: Context, es: seq<Entry>)
    requires Once(Ids(es))
    ensures Once(Ids(Sort(cx, es))) && forall id :: id in Ids(Sort(cx, es)) <==> id in Ids(es)
  {
    if es != [] {
      var rest, last := es[..|es| - 1], es[|es| - 1];
      OnceLast(es);
      SortIds(cx, rest);
      InsertIds(cx, last, Sort(cx, rest));
    }
  }

  lemma {:induction false} RenumberKeepsIds(es: seq<Entry>)
    ensures Ids(Renumber(es)) == Ids(es)
  {
  }

  /** Exactly the valid definition ids, once each, with fallback orders 0 to n - 1. */
  lemma {:induction false} OutputIsComplete(cx: Context, raws: seq<RawEntry>)
    ensures var out := NormalizeProviders(cx, raws);
            && Once(Ids(out))
            && (forall id :: id in Ids(out) <==> cx.isProviderId(id) && exists d :: d in cx.definitions && d.id == id)
            && forall i :: 0 <= i < |out| ==> out[i].fallbackOrder == i
  {
    var es := Collect(cx, [], raws);
    CollectIds(cx, [], raws);
    FillIds(cx, es, ValidIds(cx, cx.definitions), Increment(Highest(es)));
    SortIds(cx, Gathered(cx, raws));
    RenumberKeepsIds(Sort(cx, Gathered(cx, raws)));
  }

  // ---------- The output is sorted by what the document asked for ----------

  ghost predicate StrictOrder(cx: Context) {
    && (forall a, b :: cx.before(a, b) ==> !cx.before(b, a))
    && (forall a, b, c :: cx.before(a, b) && cx.before(b, c) ==> cx.before(a, c))
    && (forall a, b :: a != b ==> cx.before(a, b) || cx.before(b, a))
  }

  predicate Sorted(cx: Context, es: seq<Entry>) {
    forall i, j :: 0 <= i < j < |es| ==> !Less(cx, es[j], es[i])
  }

  lemma {:induction false} InsertSorts(cx: Context, e: Entry, es: seq<Entry>)
    requires StrictOrder(cx) && Sorted(cx, es)
    ensures Sorted(cx, Insert(cx, e, es))
  {
    if es != [] {
      var rest, last := es[..|es| - 1], es[|es| - 1];
      if Less(cx, e, last) {
        InsertSorts(cx, e, rest);
        InsertPermutes(cx, e, rest);
        var r := Insert(cx, e, rest);
        forall i | 0 <= i < |r|
          ensures !Less(cx, last, r[i])
        {
          assert r[i] in multiset(r);
          assert r[i] in rest || r[i] == e;
        }
      } else {
        forall i | 0 <= i < |es|
          ensures !Less(cx, e, es[i])
        {
          if Less(cx, e, es[i]) && i < |es| - 1 {
            assert !Less(cx, last, es[i]);
            NotLessChain(cx, e, last, es[i]);
          }
        }
      }
    }
  }

  lemma {:induction false} NotLessChain(cx: Context, e: Entry, last: Entry, x: Entry)
    requires StrictOrder(cx) && !Less(cx, e, last) && !Less(cx, last, x)
    ensures !Less(cx, e, x)
  {
    assert last.id == x.id || cx.before(x.id, last.id) || cx.before(last.id, x.id);
    assert e.id == last.id || cx.before(e.id, last.id) || cx.before(last.id, e.id);
  }

  lemma {:induction false} SortSorts(cx: Context, es: seq<Entry>)
    requires StrictOrder(cx)
    ensures Sorted(cx, Sort(cx, es)) && multiset(Sort(cx, es)) == multiset(es)
  {
    SortPermutes(cx, es);
    if es != [] {
      SortSorts(cx, es[..|es| - 1]);
      InsertSorts(cx, es[|es| - 1], Sort(cx, es[..|es| - 1]));
    }
  }

  // ---------- Where each entry comes from ----------

  /** The last entry of the document with this id. */
  predicate LastAt(raws: seq<RawEntry>, k: int, id: string) {
    0 <= k < |raws| && raws[k].id == Text(id) && forall j :: k < j < |raws| ==> raws[j].id != Text(id)
  }

  predicate Named(raws: seq<RawEntry>, id: string) {
    exists k :: 0 <= k < |raws| && raws[k].id == Text(id)
  }

  /** What the document says of a provider, field by field; where it says nothing, the default's flag and order. */
  predicate AsWritten(cx: Context, e: Entry, raw: RawEntry) {
    var d := cx.defaultOf(e.id);
    && (raw.model.Text? && cx.trim(raw.model.text) != "" ==> e.model == Some(cx.trim(raw.model.text)))
    && (!raw.model.Text? || cx.trim(raw.model.text) == "" ==> e.model == None)
    && (raw.enabled.Some? ==> e.enabled == raw.enabled.value)
    && (raw.enabled.None? && d.Some? ==> e.enabled == d.value.enabled)
    && (raw.enabled.None? && d.None? ==> e.enabled)
    && (raw.fallbackOrder.Some? && 0 <= raw.fallbackOrder.value <= MAX_SAFE_INTEGER ==> e.fallbackOrder == raw.fallbackOrder.value)
    && (raw.fallbackOrder.Some? && raw.fallbackOrder.value < 0 ==> e.fallbackOrder == 0)
    && (raw.fallbackOrder.Some? && raw.fallbackOrder.value > MAX_SAFE_INTEGER ==> e.fallbackOrder == MAX_SAFE_INTEGER)
    && (raw.fallbackOrder.None? && d.Some? ==> e.fallbackOrder == d.value.fallbackOrder)
    && (raw.fallbackOrder.None? && d.None? ==> e.fallbackOrder == MAX_SAFE_INTEGER)
    && (raw.defaultState.Some? ==> e.defaultState == raw.defaultState.value)
    && (raw.defaultState.None? ==> e.defaultState == Unknown)
    && e.overrideState == raw.overrideState
  }

  /** A provider the document does not name: its default, or enabled, unknown and at some order of its own. */
  predicate AsDefault(cx: Context, e: Entry) {
    var d := cx.defaultOf(e.id);
    && e.model == None && e.overrideState == None
    && (d.Some? ==> e.enabled == d.value.enabled && e.fallbackOrder == d.value.fallbackOrder && e.defaultState == d.value.defaultState)
    && (d.None? ==> e.enabled && e.defaultState == Unknown)
  }

  /** Harness and origin are those of its definition, unless it has a default. */
  ghost predicate AsDefined(cx: Context, e: Entry) {
    if cx.defaultOf(e.id).Some? then e.harnessId == None && e.origin == None
    else exists d :: d in cx.definitions && d.id == e.id && e.harnessId == d.harnessId && e.origin == d.origin
  }

  /** As the last entry of the document with its id says. */
  ghost predicate Written(cx: Context, raws: seq<RawEntry>, e: Entry) {
    exists k :: LastAt(raws, k, e.id) && AsWritten(cx, e, raws[k])
  }

  ghost predicate Sourced(cx: Context, raws: seq<RawEntry>, e: Entry) {
    AsDefined(cx, e) && (Written(cx, raws, e) || (!Named(raws, e.id) && AsDefault(cx, e)))
  }

  lemma {:induction false} DefinitionIsThere(defs: seq<Definition>, id: string)
    requires exists d :: d in defs && d.id == id
    ensures DefinitionFor(defs, id).Some? && DefinitionFor(defs, id).value in defs && DefinitionFor(defs, id).value.id == id
  {
    var n := |defs| - 1;
    if defs[n].id != id {
      assert defs == defs[..n] + [defs[n]];
      DefinitionIsThere(defs[..n], id);
    }
  }

  lemma {:induction false} DefinedById(cx: Context, e: Entry)
    requires e.id in ValidIds(cx, cx.definitions) && e.harnessId == HarnessOf(cx, e.id) && e.origin == OriginOf(cx, e.id)
    ensures AsDefined(cx, e)
  {
    DefinitionIsThere(cx.definitions, e.id);
  }

  lemma {:induction false} EntryAsWritten(cx: Context, raw: RawEntry)
    ensures NormalizeEntry(cx, raw).Some? <==> raw.id.Text? && raw.id.text in ValidIds(cx, cx.definitions)
    ensures NormalizeEntry(cx, raw).Some? ==>
              var e := NormalizeEntry(cx, raw).value; raw.id == Text(e.id) && AsWritten(cx, e, raw) && AsDefined(cx, e)
  {
    if NormalizeEntry(cx, raw).Some? {
      DefinedById(cx, NormalizeEntry(cx, raw).value);
    }
  }

  /** The entries collected so far come from the documents read so far, and no valid one is missing. */
  ghost predicate Collected(cx: Context, raws: seq<RawEntry>, es: seq<Entry>) {
    && Once(Ids(es))
    && (forall e :: e in es ==> e.id in ValidIds(cx, cx.definitions))
    && (forall e :: e in es ==> AsDefined(cx, e) && Written(cx, raws, e))
    && (forall id :: Named(raws, id) && id in ValidIds(cx, cx.definitions) ==> id in Ids(es))
  }

  lemma {:induction false} PutMembers(es: seq<Entry>, e: Entry, x: Entry)
    requires Once(Ids(es)) && x in Put(es, e)
    ensures x == e || (x in es && x.id != e.id)
  {
    if es != [] {
      assert es == [es[0]] + es[1..];
      assert Ids(es) == [es[0].id] + Ids(es[1..]);
      assert Ids(es)[1..] == Ids(es[1..]);
      if es[0].id == e.id {
        if x in es[1..] {
          var k :| 0 <= k < |es[1..]| && es[1..][k] == x;
          assert Ids(es)[k + 1] == x.id && Ids(es)[0] == e.id;
        }
      } else if x != es[0] {
        assert Once(Ids(es[1..]));
        PutMembers(es[1..], e, x);
      }
    }
  }

  lemma {:induction false} StillLast(raws: seq<RawEntry>, raw: RawEntry, k: int, id: string)
    requires LastAt(raws, k, id) && raw.id != Text(id)
    ensures LastAt(raws + [raw], k, id)
  {
  }

  lemma {:induction false} NamedBefore(raws: seq<RawEntry>, raw: RawEntry, id: string)
    ensures Named(raws + [raw], id) <==> Named(raws, id) || raw.id == Text(id)
  {
    if Named(raws, id) {
      var k :| 0 <= k < |raws| && raws[k].id == Text(id);
      assert (raws + [raw])[k].id == Text(id);
    }
    if raw.id == Text(id) {
      assert (raws + [raw])[|raws|].id == Text(id);
    }
  }

  function With(cx: Context, es: seq<Entry>, raw: RawEntry): seq<Entry> {
    var n := NormalizeEntry(cx, raw);
    if n.Some? then Put(es, n.value) else es
  }

  lemma {:induction false} WithWritten(cx: Context, raws: seq<RawEntry>, es: seq<Entry>, raw: RawEntry, longer: seq<RawEntry>, e: Entry)
    requires Collected(cx, raws, es) && longer == raws + [raw] && e in With(cx, es, raw)
    ensures e.id in ValidIds(cx, cx.definitions) && AsDefined(cx, e) && Written(cx, longer, e)
  {
    var n := NormalizeEntry(cx, raw);
    EntryAsWritten(cx, raw);
    if n.Some? {
      PutMembers(es, n.value, e);
    }
    if n.Some? && e == n.value {
      assert LastAt(longer, |raws|, e.id) && AsWritten(cx, e, longer[|raws|]);
    } else {
      OtherStays(cx, raws, es, raw, e);
    }
  }

  lemma {:induction false} WithNamed(cx: Context, raws: seq<RawEntry>, es: seq<Entry>, raw: RawEntry, id: string)
    requires Collected(cx, raws, es) && Named(raws + [raw], id) && id in ValidIds(cx, cx.definitions)
    ensures id in Ids(With(cx, es, raw))
  {
    var n := NormalizeEntry(cx, raw);
    EntryAsWritten(cx, raw);
    NamedBefore(raws, raw, id);
    if n.Some? {
      PutIds(es, n.value);
    }
  }

  lemma {:induction false} WithOnce(cx: Context, es: seq<Entry>, raw: RawEntry)
    requires Once(Ids(es))
    ensures Once(Ids(With(cx, es, raw)))
  {
    var n := NormalizeEntry(cx, raw);
    if n.Some? {
      PutIds(es, n.value);
    }
  }

  lemma {:induction false} CollectOne(cx: Context, raws: seq<RawEntry>, es: seq<Entry>, raw: RawEntry, longer: seq<RawEntry>)
    requires Collected(cx, raws, es) && longer == raws + [raw]
    ensures Collected(cx, longer, With(cx, es, raw))
  {
    WithOnce(cx, es, raw);
    forall e | e in With(cx, es, raw)
      ensures e.id in ValidIds(cx, cx.definitions) && AsDefined(cx, e) && Written(cx, longer, e)
    {
      WithWritten(cx, raws, es, raw, longer, e);
    }
    forall id | Named(longer, id) && id in ValidIds(cx, cx.definitions)
      ensures id in Ids(With(cx, es, raw))
    {
      WithNamed(cx, raws, es, raw, id);
    }
  }

  /** An entry that the next document does not name keeps its source. */
  lemma {:induction false} OtherStays(cx: Context, raws: seq<RawEntry>, es: seq<Entry>, raw: RawEntry, e: Entry)
    requires Collected(cx, raws, es) && e in es
    requires NormalizeEntry(cx, raw).Some? ==> e.id != NormalizeEntry(cx, raw).value.id
    ensures AsDefined(cx, e) && Written(cx, raws + [raw], e)
  {
    var k :| LastAt(raws, k, e.id) && AsWritten(cx, e, raws[k]);
    EntryAsWritten(cx, raw);
    assert raw.id != Text(e.id);
    StillLast(raws, raw, k, e.id);
    assert (raws + [raw])[k] == raws[k];
  }

  lemma {:induction false} CollectAll(cx: Context, raws: seq<RawEntry>, n: nat, es: seq<Entry>)
    requires n <= |raws| && Collected(cx, raws[..n], es)
    ensures Collected(cx, raws, Collect(cx, es, raws[n..]))
    decreases |raws| - n
  {
    if n == |raws| {
      assert raws[..n] == raws;
    } else {
      assert raws[..n] + [raws[n]] == raws[..n + 1];
      CollectOne(cx, raws[..n], es, raws[n], raws[..n + 1]);
      CollectAll(cx, raws, n + 1, With(cx, es, raws[n]));
      assert raws[n..][0] == raws[n] && raws[n..][1..] == raws[n + 1..];
    }
  }

  /** Whatever is filled in is a default for a provider that the document does not name. */
  lemma {:induction false} FillSourced(cx: Context, raws: seq<RawEntry>, es: seq<Entry>, ids: seq<string>, next: int)
    requires forall e :: e in es ==> Sourced(cx, raws, e)
    requires forall id :: id in ids ==> id in ValidIds(cx, cx.definitions) && (Named(raws, id) ==> id in Ids(es))
    ensures forall e :: e in Fill(cx, es, ids, next) ==> Sourced(cx, raws, e)
    decreases |ids|
  {
    if ids != [] {
      assert ids[0] in ids;
      if ids[0] in Ids(es) {
        FillSourced(cx, raws, es, ids[1..], next);
      } else {
        var e := DefaultEntry(cx, ids[0], next);
        DefinedById(cx, e);
        IdsAppend(es, e);
        FillSourced(cx, raws, es + [e], ids[1..], if cx.defaultOf(ids[0]).Some? then next else Increment(next));
      }
    }
  }

  lemma {:induction false} GatheredSourced(cx: Context, raws: seq<RawEntry>)
    ensures forall e :: e in Gathered(cx, raws) ==> Sourced(cx, raws, e)
  {
    assert forall id :: !Named([], id);
    assert raws[..0] == [] && raws[0..] == raws;
    CollectAll(cx, raws, 0, []);
    var es := Collect(cx, [], raws);
    FillSourced(cx, raws, es, ValidIds(cx, cx.definitions), Increment(Highest(es)));
  }

  lemma {:induction false} HighestBounds(es: seq<Entry>, e: Entry)
    requires e in es
    ensures e.fallbackOrder <= Highest(es)
  {
    var n := |es| - 1;
    assert es == es[..n] + [es[n]];
    if e in es[..n] {
      HighestBounds(es[..n], e);
    }
  }

  /** What is filled in has a default, or stands at or behind the next free order. */
  lemma {:induction false} FillOrders(cx: Context, es: seq<Entry>, ids: seq<string>, next: int, e: Entry)
    requires e in Fill(cx, es, ids, next)
    ensures e in es || (e.id !in Ids(es) && (cx.defaultOf(e.id).Some? || e.fallbackOrder >= next))
    decreases |ids|
  {
    if ids != [] {
      if ids[0] in Ids(es) {
        FillOrders(cx, es, ids[1..], next, e);
      } else {
        var d := DefaultEntry(cx, ids[0], next);
        IdsAppend(es, d);
        FillOrders(cx, es + [d], ids[1..], if cx.defaultOf(ids[0]).Some? then next else Increment(next), e);
      }
    }
  }

  /** The default orders are constants of the program, far below the limit. */
  ghost predicate DefaultsSafe(cx: Context) {
    forall id :: cx.defaultOf(id).Some? ==> cx.defaultOf(id).value.fallbackOrder <= MAX_SAFE_INTEGER
  }

  lemma {:induction false} HighestIsSafe(cx: Context, raws: seq<RawEntry>, es: seq<Entry>)
    requires Collected(cx, raws, es) && DefaultsSafe(cx)
    ensures Highest(es) <= MAX_SAFE_INTEGER
  {
    if Highest(es) >= 0 {
      HighestIsThere(es);
      var e :| e in es && e.fallbackOrder == Highest(es);
      var k :| LastAt(raws, k, e.id) && AsWritten(cx, e, raws[k]);
    }
  }

  /** What was collected is what the document names. */
  lemma {:induction false} CollectedIffNamed(cx: Context, raws: seq<RawEntry>, es: seq<Entry>, e: Entry, next: int)
    requires Collected(cx, raws, es) && e in Fill(cx, es, ValidIds(cx, cx.definitions), next) && e.id in ValidIds(cx, cx.definitions)
    ensures e in es <==> Named(raws, e.id)
  {
    FillOrders(cx, es, ValidIds(cx, cx.definitions), next, e);
    if e in es {
      var m :| LastAt(raws, m, e.id) && AsWritten(cx, e, raws[m]);
    }
  }

  /** A provider that the document does not name and that has no default comes behind all it names. */
  lemma {:induction false} UnnamedComeLast(cx: Context, raws: seq<RawEntry>, a: Entry, b: Entry)
    requires DefaultsSafe(cx) && a in Gathered(cx, raws) && b in Gathered(cx, raws)
    requires Named(raws, a.id) && !Named(raws, b.id) && cx.defaultOf(b.id).None?
    ensures a.fallbackOrder < b.fallbackOrder
  {
    assert forall id :: !Named([], id);
    assert raws[..0] == [] && raws[0..] == raws;
    CollectAll(cx, raws, 0, []);
    var es := Collect(cx, [], raws);
    var next := Increment(Highest(es));
    GatheredIds(cx, raws);
    MemberId(Gathered(cx, raws), a);
    MemberId(Gathered(cx, raws), b);
    CollectedIffNamed(cx, raws, es, a, next);
    CollectedIffNamed(cx, raws, es, b, next);
    FillOrders(cx, es, ValidIds(cx, cx.definitions), next, b);
    HighestBounds(es, a);
    HighestIsSafe(cx, raws, es);
  }

  lemma {:induction false} MemberId(es: seq<Entry>, e: Entry)
    requires e in es
    ensures e.id in Ids(es)
  {
    var k :| 0 <= k < |es| && es[k] == e;
    assert Ids(es)[k] == e.id;
  }

  lemma {:induction false} HighestIsThere(es: seq<Entry>)
    requires Highest(es) >= 0
    ensures exists e :: e in es && e.fallbackOrder == Highest(es)
  {
    var n := |es| - 1;
    if es[n].fallbackOrder != Highest(es) {
      HighestIsThere(es[..n]);
    }
  }

  /**
   Every provider in the output is as the document's last entry for it says, or, if there is none,
   as its default says; and they come in the order these give, then by id, numbered anew.
   */
  lemma {:induction false} OutputIsSourced(cx: Context, raws: seq<RawEntry>) returns (sorted: seq<Entry>)
    requires StrictOrder(cx)
    ensures var out := NormalizeProviders(cx, raws);
            && |sorted| == |out|
            && (forall i :: 0 <= i < |out| ==> Sourced(cx, raws, sorted[i]) && out[i] == sorted[i].(fallbackOrder := i))
            && (forall i, j :: 0 <= i < j < |sorted| ==>
                  sorted[i].fallbackOrder < sorted[j].fallbackOrder
                  || (sorted[i].fallbackOrder == sorted[j].fallbackOrder && (sorted[i].id == sorted[j].id || cx.before(sorted[i].id, sorted[j].id))))
  {
    var gathered := Gathered(cx, raws);
    GatheredSourced(cx, raws);
    SortSorts(cx, gathered);
    sorted := Sort(cx, gathered);
    forall i | 0 <= i < |sorted| ensures Sourced(cx, raws, sorted[i]) {
      assert sorted[i] in multiset(sorted);
      assert sorted[i] in gathered;
    }
    forall i, j | 0 <= i < j < |sorted|
      ensures sorted[i].fallbackOrder < sorted[j].fallbackOrder
              || (sorted[i].fallbackOrder == sorted[j].fallbackOrder && (sorted[i].id == sorted[j].id || cx.before(sorted[i].id, sorted[j].id)))
    {
      assert !Less(cx, sorted[j], sorted[i]);
    }
  }

  // ---------- Normalising twice ----------

  /** The entry as the settings file stores it. */
  function EntryRaw(e: Entry): RawEntry {
    RawEntry(Text(e.id), if e.model.Some? then Text(e.model.value) else Absent, Some(e.enabled), Some(e.fallbackOrder),
             Some(e.defaultState), e.overrideState, Absent)
  }

  function EntriesRaw(es: seq<Entry>): seq<RawEntry> {
    seq(|es|, i requires 0 <= i < |es| => EntryRaw(es[i]))
  }

  /** Everything about an entry but its order is as normalisation leaves it. */
  predicate NormalForm(cx: Context, e: Entry) {
    && e.id in ValidIds(cx, cx.definitions) && e.harnessId == HarnessOf(cx, e.id) && e.origin == OriginOf(cx, e.id)
    && (e.model.Some? ==> e.model.value != "" && cx.trim(e.model.value) == e.model.value)
  }

  predicate AllNormal(cx: Context, es: seq<Entry>) {
    forall e :: e in es ==> NormalForm(cx, e)
  }

  ghost predicate TrimIdempotent(cx: Context) {
    cx.trim("") == "" && forall s :: cx.trim(cx.trim(s)) == cx.trim(s)
  }

  lemma {:induction false} PutNormal(cx: Context, es: seq<Entry>, e: Entry)
    requires AllNormal(cx, es) && NormalForm(cx, e)
    ensures AllNormal(cx, Put(es, e))
  {
    if es != [] && es[0].id != e.id {
      PutNormal(cx, es[1..], e);
    }
  }

  lemma {:induction false} CollectNormal(cx: Context, es: seq<Entry>, raws: seq<RawEntry>)
    requires AllNormal(cx, es) && TrimIdempotent(cx)
    ensures AllNormal(cx, Collect(cx, es, raws))
    decreases |raws|
  {
    if raws != [] {
      var e := NormalizeEntry(cx, raws[0]);
      if e.Some? {
        PutNormal(cx, es, e.value);
      }
      CollectNormal(cx, if e.Some? then Put(es, e.value) else es, raws[1..]);
    }
  }

  lemma {:induction false} FillNormal(cx: Context, es: seq<Entry>, ids: seq<string>, next: int)
    requires AllNormal(cx, es) && forall id :: id in ids ==> id in ValidIds(cx, cx.definitions)
    ensures AllNormal(cx, Fill(cx, es, ids, next))
    decreases |ids|
  {
    if ids != [] {
      var e := DefaultEntry(cx, ids[0], next);
      assert NormalForm(cx, e);
      if ids[0] in Ids(es) {
        FillNormal(cx, es, ids[1..], next);
      } else {
        FillNormal(cx, es + [e], ids[1..], if cx.defaultOf(ids[0]).Some? then next else Increment(next));
      }
    }
  }

  lemma {:induction false} OutputNormal(cx: Context, raws: seq<RawEntry>)
    requires TrimIdempotent(cx)
    ensures AllNormal(cx, NormalizeProviders(cx, raws))
  {
    var es := Collect(cx, [], raws);
    CollectNormal(cx, [], raws);
    FillNormal(cx, es, ValidIds(cx, cx.definitions), Increment(Highest(es)));
    var gathered := Gathered(cx, raws);
    SortPermutes(cx, gathered);
    var sorted := Sort(cx, gathered);
    forall e | e in Renumber(sorted)
      ensures NormalForm(cx, e)
    {
      var i :| 0 <= i < |sorted| && Renumber(sorted)[i] == e;
      assert sorted[i] in multiset(sorted);
      assert sorted[i] in gathered;
    }
  }

  lemma {:induction false} PutNew(es: seq<Entry>, e: Entry)
    requires e.id !in Ids(es)
    ensures Put(es, e) == es + [e]
  {
    if es != [] {
      assert es[0].id == Ids(es)[0];
      assert Ids(es[1..]) == Ids(es)[1..];
      PutNew(es[1..], e);
    }
  }

  lemma {:induction false} CollectAgain(cx: Context, done: seq<Entry>, rest: seq<Entry>)
    requires Once(Ids(done + rest)) && AllNormal(cx, rest)
    requires forall e :: e in rest ==> 0 <= e.fallbackOrder <= MAX_SAFE_INTEGER
    ensures Collect(cx, done, EntriesRaw(rest)) == done + rest
    decreases |rest|
  {
    if rest == [] {
      assert done + rest == done;
    } else {
      var e := rest[0];
      assert e in rest && NormalForm(cx, e);
      assert NormalizeEntry(cx, EntryRaw(e)) == Some(e);
      forall i | 0 <= i < |done|
        ensures Ids(done)[i] != e.id
      {
        assert Ids(done + rest)[i] == Ids(done)[i] && Ids(done + rest)[|done|] == e.id;
      }
      PutNew(done, e);
      assert EntriesRaw(rest)[0] == EntryRaw(e) && EntriesRaw(rest)[1..] == EntriesRaw(rest[1..]);
      assert done + [e] + rest[1..] == done + rest;
      CollectAgain(cx, done + [e], rest[1..]);
    }
  }

  lemma {:induction false} FillNothing(cx: Context, es: seq<Entry>, ids: seq<string>, next: int)
    requires forall id :: id in ids ==> id in Ids(es)
    ensures Fill(cx, es, ids, next) == es
    decreases |ids|
  {
    if ids != [] {
      assert ids[0] in ids;
      FillNothing(cx, es, ids[1..], next);
    }
  }

  lemma {:induction false} SortNothing(cx: Context, es: seq<Entry>)
    requires forall i :: 0 <= i < |es| ==> es[i].fallbackOrder == i
    ensures Sort(cx, es) == es
  {
    if es != [] {
      var rest := es[..|es| - 1];
      SortNothing(cx, rest);
      assert es == rest + [es[|es| - 1]];
    }
  }

  /** Complete, numbered entries in normal form come through unchanged. */
  lemma {:induction false} NormalizedStays(cx: Context, out: seq<Entry>)
    requires AllNormal(cx, out) && Once(Ids(out)) && |out| <= MAX_SAFE_INTEGER
    requires forall i :: 0 <= i < |out| ==> out[i].fallbackOrder == i
    requires forall id :: id in ValidIds(cx, cx.definitions) ==> id in Ids(out)
    ensures NormalizeProviders(cx, EntriesRaw(out)) == out
  {
    GatheredStays(cx, out);
    SortNothing(cx, out);
    RenumberNothing(out);
  }

  lemma {:induction false} RenumberNothing(out: seq<Entry>)
    requires forall i :: 0 <= i < |out| ==> out[i].fallbackOrder == i
    ensures Renumber(out) == out
  {
  }

  lemma {:induction false} GatheredStays(cx: Context, out: seq<Entry>)
    requires AllNormal(cx, out) && Once(Ids(out)) && |out| <= MAX_SAFE_INTEGER
    requires forall i :: 0 <= i < |out| ==> out[i].fallbackOrder == i
    requires forall id :: id in ValidIds(cx, cx.definitions) ==> id in Ids(out)
    ensures Gathered(cx, EntriesRaw(out)) == out
  {
    assert [] + out == out;
    forall e | e in out
      ensures 0 <= e.fallbackOrder <= MAX_SAFE_INTEGER
    {
      var i :| 0 <= i < |out| && out[i] == e;
    }
    CollectAgain(cx, [], out);
    FillNothing(cx, out, ValidIds(cx, cx.definitions), Increment(Highest(out)));
  }

  /** Normalising the stored form of normalised providers changes nothing. */
  lemma {:induction false} ProvidersIdempotent(cx: Context, raws: seq<RawEntry>)
    requires TrimIdempotent(cx) && |NormalizeProviders(cx, raws)| <= MAX_SAFE_INTEGER
    ensures NormalizeProviders(cx, EntriesRaw(NormalizeProviders(cx, raws))) == NormalizeProviders(cx, raws)
  {
    OutputIsComplete(cx, raws);
    OutputNormal(cx, raws);
    NormalizedStays(cx, NormalizeProviders(cx, raws));
  }

  // ---------- The other settings ----------

  function NormalizedSelection(cx: Context, provider: string, model: RawText, url: RawText, effort: RawText): Option<Selection> {
    var m := if model.Text? then cx.trim(model.text) else "";
    if !cx.isProviderId(provider) || (m == "" && provider != "codex") then None
    else if provider != "ollama" then Some(Selection(provider, m, Clean(cx, effort), None))
    else if m == "" then None
    else
      var u := if url.Absent? then Some(cx.defaultUrl) else if url.Text? then cx.parseUrl(url.text) else None;
      if u.None? then None else Some(Selection(provider, m, None, u))
  }

  /** What a selection needs to stand, field by field: only codex may do without a model, and only Ollama has a URL. */
  predicate Stands(cx: Context, provider: string, model: RawText, url: RawText, effort: RawText, s: Selection) {
    && cx.isProviderId(provider) && s.provider == provider
    && s.model == (if model.Text? then cx.trim(model.text) else "") && (s.model != "" || provider == "codex")
    && (provider == "ollama" ==> s.reasoningEffort == None && s.ollamaBaseUrl.Some? && !url.Other?)
    && (provider == "ollama" && url.Absent? ==> s.ollamaBaseUrl == Some(cx.defaultUrl))
    && (provider == "ollama" && url.Text? ==> s.ollamaBaseUrl == cx.parseUrl(url.text))
    && (provider != "ollama" ==> s.ollamaBaseUrl == None)
    && (provider != "ollama" && effort.Text? && cx.trim(effort.text) != "" ==> s.reasoningEffort == Some(cx.trim(effort.text)))
    && (provider != "ollama" && (!effort.Text? || cx.trim(effort.text) == "") ==> s.reasoningEffort == None)
  }

  lemma {:induction false} SelectionIff(cx: Context, provider: string, model: RawText, url: RawText, effort: RawText, s: Selection)
    ensures NormalizedSelection(cx, provider, model, url, effort) == Some(s) <==> Stands(cx, provider, model, url, effort, s)
  {
  }

  /** The entries that name a model. */
  function Modeled(es: seq<Entry>): seq<Entry> {
    if es == [] then [] else Modeled(es[..|es| - 1]) + if es[|es| - 1].model.Some? then [es[|es| - 1]] else []
  }

  /** A document older than version 2 selects the only provider that names a model, if there is just one. */
  function NormalizeSelection(cx: Context, raw: Raw, es: seq<Entry>): Option<Selection> {
    if raw.peonSelection.Some? then
      var s := raw.peonSelection.value;
      if !s.provider.Text? || s.provider.text !in Ids(es) then None
      else NormalizedSelection(cx, s.provider.text, s.model, s.ollamaBaseUrl, s.reasoningEffort)
    else if raw.version2 then None
    else
      var modeled := Modeled(es);
      if |modeled| != 1 then None
      else NormalizedSelection(cx, modeled[0].id, Text(if modeled[0].model.Some? then modeled[0].model.value else ""), raw.ollamaBaseUrl, Absent)
  }

  function FirstPeonModel(raws: seq<RawEntry>): Option<string> {
    if raws == [] then None
    else if raws[0].peonModel.Text? && raws[0].peonModel.text != "" then Some(raws[0].peonModel.text)
    else FirstPeonModel(raws[1..])
  }

  function NormalizePeonModel(raw: Raw): Option<string> {
    var top := if raw.peonModel.Absent? then raw.defaultPeonModel else raw.peonModel;
    if top.Text? && top.text != "" then Some(top.text) else FirstPeonModel(raw.entries)
  }

  function NormalizeUrl(cx: Context, t: RawText): string {
    var u := if t.Text? then cx.parseUrl(t.text) else None;
    if u.Some? then u.value else cx.defaultUrl
  }

  function Normalize(cx: Context, raw: Raw): Settings {
    Settings(if raw.revision.Some? && raw.revision.value > 0 then raw.revision.value else 0,
             NormalizeSelection(cx, raw, Gathered(cx, raw.entries)),
             NormalizePeonModel(raw),
             NormalizeUrl(cx, raw.ollamaBaseUrl),
             NormalizeProviders(cx, raw.entries))
  }

  /** Which selection a document makes: its own, if it names a listed provider; an old one that of the only provider with a model. */
  lemma {:induction false} DocumentSelects(cx: Context, raw: Raw, s: Selection)
    ensures var es := Gathered(cx, raw.entries);
            Normalize(cx, raw).peonSelection == Some(s) <==>
              if raw.peonSelection.Some? then
                var p := raw.peonSelection.value;
                p.provider.Text? && p.provider.text in Ids(es) && Stands(cx, p.provider.text, p.model, p.ollamaBaseUrl, p.reasoningEffort, s)
              else
                !raw.version2 && exists e :: e in es && e.model.Some? && |Modeled(es)| == 1 && Stands(cx, e.id, Text(e.model.value), raw.ollamaBaseUrl, Absent, s)
  {
    var es := Gathered(cx, raw.entries);
    if raw.peonSelection.Some? {
      var p := raw.peonSelection.value;
      if p.provider.Text? {
        SelectionIff(cx, p.provider.text, p.model, p.ollamaBaseUrl, p.reasoningEffort, s);
      }
    } else if !raw.version2 {
      if |Modeled(es)| == 1 {
        var e := Modeled(es)[0];
        ModeledAreEntries(es, e);
        ModeledName(es, e);
        SelectionIff(cx, e.id, Text(e.model.value), raw.ollamaBaseUrl, Absent, s);
        forall x | x in es && x.model.Some? ensures x == e { ModeledAll(es, x); }
      }
    }
  }

  lemma {:induction false} ModeledName(es: seq<Entry>, e: Entry)
    requires e in Modeled(es)
    ensures e.model.Some?
  {
    if e in Modeled(es[..|es| - 1]) {
      ModeledName(es[..|es| - 1], e);
    }
  }

  lemma {:induction false} ModeledAll(es: seq<Entry>, e: Entry)
    requires e in es && e.model.Some?
    ensures e in Modeled(es)
  {
    var n := |es| - 1;
    assert es == es[..n] + [es[n]];
    if e != es[n] {
      ModeledAll(es[..n], e);
    }
  }

  /** The Peon model, URL and revision of a document. */
  lemma {:induction false} DocumentSays(cx: Context, raw: Raw)
    ensures var r := Normalize(cx, raw);
            && r.revision == (if raw.revision.None? || raw.revision.value < 0 then 0 else raw.revision.value)
            && (raw.peonModel.Text? && raw.peonModel.text != "" ==> r.peonModel == Some(raw.peonModel.text))
            && (raw.peonModel.Absent? && raw.defaultPeonModel.Text? && raw.defaultPeonModel.text != "" ==> r.peonModel == Some(raw.defaultPeonModel.text))
            && (raw.ollamaBaseUrl.Text? && cx.parseUrl(raw.ollamaBaseUrl.text).Some? ==> Some(r.ollamaBaseUrl) == cx.parseUrl(raw.ollamaBaseUrl.text))
            && (!raw.ollamaBaseUrl.Text? || cx.parseUrl(raw.ollamaBaseUrl.text).None? ==> r.ollamaBaseUrl == cx.defaultUrl)
  {
  }

  function OptionRaw(x: Option<string>): RawText {
    if x.Some? then Text(x.value) else Absent
  }

  /** The settings as the file stores them. */
  function SettingsRaw(s: Settings): Raw {
    Raw(true, Some(s.revision),
        if s.peonSelection.None? then None
        else var p := s.peonSelection.value;
             Some(RawSelection(Text(p.provider), Text(p.model), OptionRaw(p.ollamaBaseUrl), OptionRaw(p.reasoningEffort))),
        OptionRaw(s.peonModel), Absent, Text(s.ollamaBaseUrl), EntriesRaw(s.providers))
  }

  /** An origin parses to itself, and so does the default URL. */
  ghost predicate UrlIdempotent(cx: Context) {
    && cx.parseUrl(cx.defaultUrl) == Some(cx.defaultUrl)
    && forall s :: cx.parseUrl(s).Some? ==> cx.parseUrl(cx.parseUrl(s).value) == cx.parseUrl(s)
  }

  lemma {:induction false} SelectionStays(cx: Context, provider: string, model: RawText, url: RawText, effort: RawText)
    requires TrimIdempotent(cx) && UrlIdempotent(cx) && NormalizedSelection(cx, provider, model, url, effort).Some?
    ensures var s := NormalizedSelection(cx, provider, model, url, effort).value;
            && s.provider == provider
            && NormalizedSelection(cx, s.provider, Text(s.model), OptionRaw(s.ollamaBaseUrl), OptionRaw(s.reasoningEffort)) == Some(s)
  {
  }

  lemma {:induction false} ModeledAreEntries(es: seq<Entry>, e: Entry)
    requires e in Modeled(es)
    ensures e in es && e.id in Ids(es)
  {
    var last := es[|es| - 1];
    if e in Modeled(es[..|es| - 1]) {
      ModeledAreEntries(es[..|es| - 1], e);
    }
    var i :| 0 <= i < |es| && es[i] == e;
    assert Ids(es)[i] == e.id;
  }

  lemma {:induction false} StoredEntriesNameNoPeonModel(es: seq<Entry>)
    ensures FirstPeonModel(EntriesRaw(es)) == None
    decreases |es|
  {
    if es != [] {
      assert EntriesRaw(es)[1..] == EntriesRaw(es[1..]);
      StoredEntriesNameNoPeonModel(es[1..]);
    }
  }

  /** A selection, once made, names a listed provider and is read back as it is. */
  lemma {:induction false} SelectionIdempotent(cx: Context, raw: Raw, es: seq<Entry>, out: seq<Entry>, again: Raw)
    requires TrimIdempotent(cx) && UrlIdempotent(cx) && again.version2
    requires forall id :: id in Ids(es) ==> id in Ids(out)
    requires var s := NormalizeSelection(cx, raw, es);
             again.peonSelection == if s.None? then None
               else Some(RawSelection(Text(s.value.provider), Text(s.value.model), OptionRaw(s.value.ollamaBaseUrl), OptionRaw(s.value.reasoningEffort)))
    ensures NormalizeSelection(cx, again, out) == NormalizeSelection(cx, raw, es)
  {
    if NormalizeSelection(cx, raw, es).Some? {
      if raw.peonSelection.Some? {
        var s := raw.peonSelection.value;
        SelectionStays(cx, s.provider.text, s.model, s.ollamaBaseUrl, s.reasoningEffort);
      } else {
        var e := Modeled(es)[0];
        ModeledAreEntries(es, e);
        SelectionStays(cx, e.id, Text(if e.model.Some? then e.model.value else ""), raw.ollamaBaseUrl, Absent);
      }
    }
  }

  /** For fixed definitions, normalising the stored form of any normalised document gives it back. */
  lemma {:induction false} NormalizeIdempotent(cx: Context, raw: Raw)
    requires TrimIdempotent(cx) && UrlIdempotent(cx) && |NormalizeProviders(cx, raw.entries)| <= MAX_SAFE_INTEGER
    ensures Normalize(cx, SettingsRaw(Normalize(cx, raw))) == Normalize(cx, raw)
  {
    var s := Normalize(cx, raw);
    var again := SettingsRaw(s);
    ProvidersIdempotent(cx, raw.entries);
    StoredEntriesNameNoPeonModel(s.providers);
    GatheredIds(cx, raw.entries);
    GatheredIds(cx, again.entries);
    SelectionIdempotent(cx, raw, Gathered(cx, raw.entries), Gathered(cx, again.entries), again);
    assert again.entries == EntriesRaw(s.providers);
    assert NormalizePeonModel(again) == s.peonModel by {
      PeonModelStays(raw, again);
    }
    assert NormalizeUrl(cx, again.ollamaBaseUrl) == s.ollamaBaseUrl;
  }

  lemma {:induction false} PeonModelStays(raw: Raw, again: Raw)
    requires again.peonModel == OptionRaw(NormalizePeonModel(raw)) && again.defaultPeonModel == Absent
    requires FirstPeonModel(again.entries) == None
    ensures NormalizePeonModel(again) == NormalizePeonModel(raw)
  {
    FirstPeonModelIsNotEmpty(raw.entries);
  }

  lemma {:induction false} FirstPeonModelIsNotEmpty(raws: seq<RawEntry>)
    ensures FirstPeonModel(raws) != Some("")
  {
    if raws != [] {
      FirstPeonModelIsNotEmpty(raws[1..]);
    }
  }

  lemma {:induction false} GatheredIds(cx: Context, raws: seq<RawEntry>)
    ensures forall id :: id in Ids(Gathered(cx, raws)) <==> id in ValidIds(cx, cx.definitions)
  {
    CollectIds(cx, [], raws);
    var es := Collect(cx, [], raws);
    FillIds(cx, es, ValidIds(cx, cx.definitions), Increment(Highest(es)));
  }

  // ---------- The loops ----------

  method RunNormalizeProviders(cx: Context, raws: seq<RawEntry>) returns (out: seq<Entry>)
    ensures out == NormalizeProviders(cx, raws)
    ensures Once(Ids(out)) && forall i :: 0 <= i < |out| ==> out[i].fallbackOrder == i
  {
    OutputIsComplete(cx, raws);
    var byId: seq<Entry> := [];
    for i := 0 to |raws|
      invariant Collect(cx, byId, raws[i..]) == Collect(cx, [], raws)
    {
      assert raws[i..][0] == raws[i] && raws[i..][1..] == raws[i + 1..];
      var candidate := NormalizeEntry(cx, raws[i]);
      if candidate.Some? {
        byId := Put(byId, candidate.value);
      }
    }
    var next := Increment(Highest(byId));
    var ids := ValidIds(cx, cx.definitions);
    for i := 0 to |ids|
      invariant Fill(cx, byId, ids[i..], next) == Gathered(cx, raws)
    {
      assert ids[i..][0] == ids[i] && ids[i..][1..] == ids[i + 1..];
      if ids[i] !in Ids(byId) {
        byId := byId + [DefaultEntry(cx, ids[i], next)];
        if cx.defaultOf(ids[i]).None? {
          next := Increment(next);
        }
      }
    }
    out := Renumber(Sort(cx, byId));
  }
}
