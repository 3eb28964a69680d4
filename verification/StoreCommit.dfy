/**
 One commit of the hierarchy store, and chains of commits: the caller's rows are
 applied, the quotas recomputed, the changed rows hashed into a manifest that
 names its predecessor, and the manifest's link written back into those rows.
 */
module StoreCommit {
  import opened Wrappers
  import opened StoreQuota

  /** A row the caller supplies; no value deletes the row. */
  datatype CoreRow = CoreRow(id: Id, value: Option<Value>)

  /** Callers supply no header and no proof, and values of the table's shape. */
  predicate CoreOk(core: seq<CoreRow>) {
    forall r :: r in core ==> !IsControl(r.id) && (r.value.Some? ==> Fits(r.id, r.value.value))
  }

  // ---------- The commit ----------

  /** Deleting a row that is not there is an error. */
  function ApplyCore(rows: Rows, core: seq<CoreRow>): Option<Rows>
    decreases |core|
  {
    if core == [] then Some(rows)
    else if core[0].value.Some? then ApplyCore(rows[core[0].id := core[0].value.value], core[1..])
    else if core[0].id in rows then ApplyCore(rows - {core[0].id}, core[1..])
    else None
  }

  /** A quota row that says the same as before is kept as it was, link included. */
  function QuotaRow(before: Rows, id: Id, used: nat): Value {
    if id in before && Project(before[id]) == QuotaBody(used, 0) then before[id] else Quota(used, 0, None)
  }

  function WithQuotas(before: Rows, rows: Rows, quotas: map<Id, nat>): Rows {
    (map id | id in rows && !id.QuotaId? :: rows[id]) + (map id | id in quotas :: QuotaRow(before, id, quotas[id]))
  }

  function Changed(before: Rows, after: Rows): set<Id> {
    set id | id in before.Keys + after.Keys && (id !in before || id !in after || Project(before[id]) != Project(after[id]))
  }

  function Digest(cfg: Config, rows: Rows, id: Id): Option<string> {
    if id in rows then Some(cfg.rowHash(id, Project(rows[id]))) else None
  }

  function Predecessor(rows: Rows): Option<Link>
    requires AllFit(rows)
  {
    if HeaderId in rows then Some(rows[HeaderId].latest) else None
  }

  function NextSequence(rows: Rows): nat
    requires AllFit(rows)
  {
    if HeaderId in rows then rows[HeaderId].latest.sequence + 1 else 1
  }

  function MakeManifest(cfg: Config, before: Rows, after: Rows, kind: string): Manifest
    requires AllFit(before)
  {
    Manifest(NextSequence(before), Predecessor(before), kind,
             map id | id in Changed(before, after) :: Change(Digest(cfg, before, id), Digest(cfg, after, id)))
  }

  function WithLinks(after: Rows, changed: set<Id>, link: Link): Rows {
    map id | id in after :: if id in changed then Relink(after[id], link) else after[id]
  }

  function Seal(cfg: Config, before: Rows, after: Rows, kind: string): Rows
    requires AllFit(before)
  {
    var manifest := MakeManifest(cfg, before, after, kind);
    var link := Link(manifest.sequence, cfg.changeHash(manifest));
    WithLinks(after, Changed(before, after), link)
      [HeaderId := Header(link)][ProofId(manifest.sequence) := Proof(manifest, link.changeDigest)]
  }

  /** The rows before they are hashed. */
  ghost function Prepared(cfg: Config, before: Rows, core: seq<CoreRow>): Option<Rows>
    requires AllFit(before) && CoreOk(core)
  {
    var rows := ApplyCore(before, core);
    if rows.None? then None else
    CoreFits(before, core);
    Some(WithQuotas(before, rows.value, DesiredQuotas(cfg, rows.value)))
  }

  ghost function Commit(cfg: Config, before: Rows, kind: string, core: seq<CoreRow>): Option<Rows>
    requires AllFit(before) && CoreOk(core)
  {
    var after := Prepared(cfg, before, core);
    if after.None? then None else Some(Seal(cfg, before, after.value, kind))
  }

  lemma {:induction false} CoreFits(rows: Rows, core: seq<CoreRow>)
    requires AllFit(rows) && CoreOk(core)
    ensures ApplyCore(rows, core).Some? ==> AllFit(ApplyCore(rows, core).value)
    decreases |core|
  {
    if core != [] {
      assert core[0] in core;
      if core[0].value.Some? {
        CoreFits(rows[core[0].id := core[0].value.value], core[1..]);
      } else if core[0].id in rows {
        CoreFits(rows - {core[0].id}, core[1..]);
      }
    }
  }

  // ---------- What one commit does ----------

  /** The value the core leaves for an id: none, a deletion, or the last one supplied. */
  function LastFor(core: seq<CoreRow>, id: Id): Option<Option<Value>> {
    if core == [] then None else
    var later := LastFor(core[1..], id);
    if later.Some? then later else if core[0].id == id then Some(core[0].value) else None
  }

  function Lookup(rows: Rows, id: Id): Option<Value> {
    if id in rows then Some(rows[id]) else None
  }

  lemma {:induction false} CoreDecides(rows: Rows, core: seq<CoreRow>, id: Id)
    requires ApplyCore(rows, core).Some?
    ensures Lookup(ApplyCore(rows, core).value, id)
         == if LastFor(core, id).Some? then LastFor(core, id).value else Lookup(rows, id)
    decreases |core|
  {
    if core != [] {
      if core[0].value.Some? {
        CoreDecides(rows[core[0].id := core[0].value.value], core[1..], id);
      } else {
        CoreDecides(rows - {core[0].id}, core[1..], id);
      }
    }
  }

  lemma {:induction false} CoreLeavesControl(core: seq<CoreRow>, id: Id)
    requires CoreOk(core) && IsControl(id)
    ensures LastFor(core, id) == None
    decreases |core|
  {
    if core != [] {
      assert core[0] in core;
      CoreLeavesControl(core[1..], id);
    }
  }

  /** The rows before hashing, id by id. */
  lemma {:induction false} PreparedRow(cfg: Config, before: Rows, core: seq<CoreRow>, id: Id)
    requires AllFit(before) && CoreOk(core) && Prepared(cfg, before, core).Some?
    ensures AllFit(ApplyCore(before, core).value)
    ensures Lookup(ApplyCore(before, core).value, id) == if LastFor(core, id).Some? then LastFor(core, id).value else Lookup(before, id)
    ensures !id.QuotaId? ==> Lookup(Prepared(cfg, before, core).value, id) == Lookup(ApplyCore(before, core).value, id)
    ensures id.QuotaId? ==>
              var quotas := DesiredQuotas(cfg, ApplyCore(before, core).value);
              Lookup(Prepared(cfg, before, core).value, id) == if id in quotas then Some(QuotaRow(before, id, quotas[id])) else None
  {
    CoreFits(before, core);
    CoreDecides(before, core, id);
    var rows := ApplyCore(before, core).value;
    QuotaKeys(cfg, rows);
    WithQuotasRow(before, rows, DesiredQuotas(cfg, rows), id);
  }

  lemma {:induction false} QuotaKeys(cfg: Config, rows: Rows)
    requires AllFit(rows)
    ensures forall q :: q in DesiredQuotas(cfg, rows) ==> q.QuotaId?
  {
  }

  lemma {:induction false} WithQuotasRow(before: Rows, rows: Rows, quotas: map<Id, nat>, id: Id)
    requires forall q :: q in quotas ==> q.QuotaId?
    ensures Lookup(WithQuotas(before, rows, quotas), id)
         == if !id.QuotaId? then Lookup(rows, id) else if id in quotas then Some(QuotaRow(before, id, quotas[id])) else None
  {
  }

  /** Header and proofs pass through to the sealing step. */
  lemma {:induction false} ControlUntouched(cfg: Config, before: Rows, core: seq<CoreRow>, id: Id)
    requires AllFit(before) && CoreOk(core) && Prepared(cfg, before, core).Some? && IsControl(id)
    ensures Lookup(Prepared(cfg, before, core).value, id) == Lookup(before, id)
    ensures id !in Changed(before, Prepared(cfg, before, core).value)
  {
    PreparedRow(cfg, before, core, id);
    CoreLeavesControl(core, id);
  }

  /** The final rows, id by id. */
  lemma {:induction false} SealedRow(cfg: Config, before: Rows, after: Rows, kind: string, id: Id)
    requires AllFit(before) && !IsControl(id)
    ensures var t := Seal(cfg, before, after, kind);
            var link := t[HeaderId].latest;
            && (id in t <==> id in after)
            && (id in after ==> t[id] == if id in Changed(before, after) then Relink(after[id], link) else after[id])
            && (id in after ==> Project(t[id]) == Project(after[id]))
            && Digest(cfg, t, id) == Digest(cfg, after, id)
  {
    if id in after {
      ProjectIgnoresLinks(id, after[id], Seal(cfg, before, after, kind)[HeaderId].latest);
    }
  }

  function Shown(rows: Rows, id: Id): Option<Projection> {
    if id in rows then Some(Project(rows[id])) else None
  }

  predicate HasProof(rows: Rows) {
    && HeaderId in rows && rows[HeaderId].Header?
    && ProofId(rows[HeaderId].latest.sequence) in rows && rows[ProofId(rows[HeaderId].latest.sequence)].Proof?
  }

  /** The changes in the manifest of the latest commit. */
  function Changes(rows: Rows): map<Id, Change>
    requires HasProof(rows)
  {
    rows[ProofId(rows[HeaderId].latest.sequence)].body.changes
  }

  /** The manifest lists exactly the rows that changed, with the digests of the rows as they were and as they are stored. */
  lemma {:induction false} ManifestMatchesStore(cfg: Config, before: Rows, kind: string, core: seq<CoreRow>, id: Id)
    requires AllFit(before) && CoreOk(core) && Commit(cfg, before, kind, core).Some? && !IsControl(id)
    ensures var after := Commit(cfg, before, kind, core).value;
            && HasProof(after)
            && (id in Changes(after) <==> Shown(before, id) != Shown(after, id))
            && (id in Changes(after) ==> Changes(after)[id] == Change(Digest(cfg, before, id), Digest(cfg, after, id)))
            && (id !in Changes(after) ==> Digest(cfg, before, id) == Digest(cfg, after, id))
  {
    var prepared := Prepared(cfg, before, core).value;
    SealedRow(cfg, before, prepared, kind, id);
    assert id in Changed(before, prepared) <==> Shown(before, id) != Shown(prepared, id);
  }

  // ---------- What is stored ----------

  /** The supplied row at i is the last one for its id. */
  predicate IsLast(core: seq<CoreRow>, i: nat)
    requires i < |core|
  {
    forall j :: i < j < |core| ==> core[j].id != core[i].id
  }

  lemma {:induction false} LastForIs(core: seq<CoreRow>, i: nat)
    requires i < |core| && IsLast(core, i)
    ensures LastFor(core, core[i].id) == Some(core[i].value)
    decreases |core|
  {
    if i == 0 {
      assert forall r :: r in core[1..] ==> r.id != core[0].id;
      NotSupplied(core[1..], core[0].id);
    } else {
      assert forall j :: 0 <= j < |core| - 1 ==> core[1..][j] == core[j + 1];
      LastForIs(core[1..], i - 1);
    }
  }

  lemma {:induction false} NotSupplied(core: seq<CoreRow>, id: Id)
    requires forall r :: r in core ==> r.id != id
    ensures LastFor(core, id) == None
    decreases |core|
  {
    if core != [] {
      assert core[0] in core;
      NotSupplied(core[1..], id);
    }
  }

  /** Every link in the row is this one. */
  predicate Carries(v: Value, link: Link) {
    match v
    case Header(_) => true
    case Proof(_, _) => true
    case Plain(_, _, lastCommit) => lastCommit == Some(link)
    case Preparation(_, _, _, commit, lastCommit) => commit == Some(link) && lastCommit == Some(link)
    case Summary(_, checkpoint, _, lastCommit) =>
      lastCommit == Some(link) && (checkpoint.Some? ==> checkpoint.value.applied == Some(link))
    case Quota(_, _, lastCommit) => lastCommit == Some(link)
  }

  /** What a commit stores for a data row: what was supplied last for it, or else what was there. */
  lemma {:induction false} CommitStores(cfg: Config, before: Rows, kind: string, core: seq<CoreRow>, id: Id)
    requires AllFit(before) && CoreOk(core) && Commit(cfg, before, kind, core).Some? && IsData(id)
    ensures var after := Commit(cfg, before, kind, core).value;
            && (forall i :: 0 <= i < |core| && core[i].id == id && IsLast(core, i) ==>
                  Shown(after, id) == if core[i].value.Some? then Some(Project(core[i].value.value)) else None)
            && ((forall r :: r in core ==> r.id != id) ==> Lookup(after, id) == Lookup(before, id))
  {
    var prepared := Prepared(cfg, before, core).value;
    var after := Commit(cfg, before, kind, core).value;
    SealedRow(cfg, before, prepared, kind, id);
    PreparedRow(cfg, before, core, id);
    forall i | 0 <= i < |core| && core[i].id == id && IsLast(core, i)
      ensures Shown(after, id) == if core[i].value.Some? then Some(Project(core[i].value.value)) else None
    {
      LastForIs(core, i);
    }
    if forall r :: r in core ==> r.id != id {
      NotSupplied(core, id);
      UnlistedRow(cfg, before, kind, core, id);
    }
  }

  lemma {:induction false} RelinkCarries(v: Value, link: Link)
    ensures Carries(Relink(v, link), link)
  {
  }

  /** A stored row that differs from the one before carries the links of this very commit, whose manifest names its kind. */
  lemma {:induction false} ChangedRowsCarryTheLink(cfg: Config, before: Rows, kind: string, core: seq<CoreRow>, id: Id)
    requires AllFit(before) && CoreOk(core) && Commit(cfg, before, kind, core).Some? && !IsControl(id)
    ensures var after := Commit(cfg, before, kind, core).value;
            && HasProof(after) && after[ProofId(after[HeaderId].latest.sequence)].body.kind == kind
            && (id in after && Shown(before, id) != Shown(after, id) ==> Carries(after[id], after[HeaderId].latest))
  {
    var prepared := Prepared(cfg, before, core).value;
    SealedRow(cfg, before, prepared, kind, id);
    if id in prepared && id in Changed(before, prepared) {
      RelinkCarries(prepared[id], Commit(cfg, before, kind, core).value[HeaderId].latest);
    }
  }

  /** The row is there when the supplied row at i is reached. */
  predicate Present(before: Rows, core: seq<CoreRow>, i: nat, id: Id)
    requires i <= |core|
  {
    var last := LastFor(core[..i], id);
    if last.Some? then last.value.Some? else id in before
  }

  predicate DeletesMissing(before: Rows, core: seq<CoreRow>, i: nat)
    requires i < |core|
  {
    core[i].value.None? && !Present(before, core, i, core[i].id)
  }

  lemma {:induction false} PresentLater(before: Rows, next: Rows, core: seq<CoreRow>, i: nat)
    requires 0 < i < |core|
    requires core[0].value.Some? ==> next == before[core[0].id := core[0].value.value]
    requires core[0].value.None? ==> next == before - {core[0].id}
    ensures DeletesMissing(before, core, i) <==> DeletesMissing(next, core[1..], i - 1)
  {
    assert core[..i][1..] == core[1..][..i - 1];
    assert core[..i][0] == core[0];
  }

  /** A commit fails exactly when it comes to delete a row that is not there at that point. */
  lemma {:induction false} ApplyFailsIff(rows: Rows, core: seq<CoreRow>)
    ensures ApplyCore(rows, core).None? <==> exists i :: 0 <= i < |core| && DeletesMissing(rows, core, i)
    decreases |core|
  {
    if core != [] {
      assert core[..0] == [];
      assert DeletesMissing(rows, core, 0) <==> core[0].value.None? && core[0].id !in rows;
      if !DeletesMissing(rows, core, 0) {
        var next := if core[0].value.Some? then rows[core[0].id := core[0].value.value] else rows - {core[0].id};
        ApplyFailsIff(next, core[1..]);
        if i :| 0 <= i < |core| && DeletesMissing(rows, core, i) {
          PresentLater(rows, next, core, i);
        }
        if i :| 0 <= i < |core| - 1 && DeletesMissing(next, core[1..], i) {
          PresentLater(rows, next, core, i + 1);
        }
      }
    }
  }

  lemma {:induction false} CommitFailsIff(cfg: Config, before: Rows, kind: string, core: seq<CoreRow>)
    requires AllFit(before) && CoreOk(core)
    ensures Commit(cfg, before, kind, core).None? <==> exists i :: 0 <= i < |core| && DeletesMissing(before, core, i)
  {
    ApplyFailsIff(before, core);
  }

  // ---------- Rows outside the manifest ----------

  /** No supplied row repeats a stored one except for its links. */
  ghost predicate NoIdleRewrite(before: Rows, core: seq<CoreRow>) {
    forall id :: IsData(id) && id in before && LastFor(core, id).Some? && LastFor(core, id).value.Some?
                 && Project(LastFor(core, id).value.value) == Project(before[id]) ==>
                   LastFor(core, id).value.value == before[id]
  }

  ghost predicate UnlistedUnchanged(before: Rows, after: Rows, listed: set<Id>) {
    forall id :: !IsControl(id) && id !in listed ==> Lookup(before, id) == Lookup(after, id)
  }

  lemma {:induction false} UnlistedRow(cfg: Config, before: Rows, kind: string, core: seq<CoreRow>, id: Id)
    requires AllFit(before) && CoreOk(core) && Commit(cfg, before, kind, core).Some? && !IsControl(id)
    requires id !in Changed(before, Prepared(cfg, before, core).value)
    ensures var after := Commit(cfg, before, kind, core).value;
            && Lookup(after, id) == Lookup(Prepared(cfg, before, core).value, id)
            && (id.QuotaId? ==> Lookup(after, id) == Lookup(before, id))
            && (IsData(id) ==> Lookup(after, id) == if LastFor(core, id).Some? then LastFor(core, id).value else Lookup(before, id))
  {
    SealedRow(cfg, before, Prepared(cfg, before, core).value, kind, id);
    PreparedRow(cfg, before, core, id);
  }

  lemma {:induction false} IdleRewriteShows(cfg: Config, before: Rows, kind: string, core: seq<CoreRow>, id: Id)
    requires AllFit(before) && CoreOk(core) && Commit(cfg, before, kind, core).Some?
    requires IsData(id) && id in before && LastFor(core, id).Some? && LastFor(core, id).value.Some?
    requires Project(LastFor(core, id).value.value) == Project(before[id])
    ensures id !in Changed(before, Prepared(cfg, before, core).value)
    ensures Lookup(Commit(cfg, before, kind, core).value, id) == LastFor(core, id).value
  {
    PreparedRow(cfg, before, core, id);
    UnlistedRow(cfg, before, kind, core, id);
  }

  lemma {:induction false} CleanRowStays(cfg: Config, before: Rows, kind: string, core: seq<CoreRow>, id: Id)
    requires AllFit(before) && CoreOk(core) && Commit(cfg, before, kind, core).Some? && !IsControl(id)
    requires id !in Changed(before, Prepared(cfg, before, core).value) && NoIdleRewrite(before, core)
    ensures Lookup(before, id) == Lookup(Commit(cfg, before, kind, core).value, id)
  {
    PreparedRow(cfg, before, core, id);
    UnlistedRow(cfg, before, kind, core, id);
  }

  /** Rows outside the manifest are unchanged if and only if no supplied row rewrites a stored one with other links only. */
  lemma {:induction false} UnlistedUnchangedIff(cfg: Config, before: Rows, kind: string, core: seq<CoreRow>)
    requires AllFit(before) && CoreOk(core) && Commit(cfg, before, kind, core).Some?
    ensures UnlistedUnchanged(before, Commit(cfg, before, kind, core).value, Changed(before, Prepared(cfg, before, core).value))
       <==> NoIdleRewrite(before, core)
  {
    var after := Commit(cfg, before, kind, core).value;
    var listed := Changed(before, Prepared(cfg, before, core).value);
    if NoIdleRewrite(before, core) {
      forall id | !IsControl(id) && id !in listed
        ensures Lookup(before, id) == Lookup(after, id)
      {
        CleanRowStays(cfg, before, kind, core, id);
      }
    }
    if UnlistedUnchanged(before, after, listed) {
      forall id | IsData(id) && id in before && LastFor(core, id).Some? && LastFor(core, id).value.Some?
                  && Project(LastFor(core, id).value.value) == Project(before[id])
        ensures LastFor(core, id).value.value == before[id]
      {
        IdleRewriteShows(cfg, before, kind, core, id);
        assert Lookup(before, id) == Lookup(after, id);
      }
    }
  }

  lemma {:induction false} OneRowSupplied(cfg: Config, before: Rows, kind: string, id: Id, v: Value)
    requires AllFit(before) && IsData(id) && Fits(id, v)
    ensures var core := [CoreRow(id, Some(v))];
            CoreOk(core) && LastFor(core, id) == Some(Some(v)) && ApplyCore(before, core).Some? && Commit(cfg, before, kind, core).Some?
  {
    var core := [CoreRow(id, Some(v))];
    assert core[1..] == [];
    assert LastFor(core[1..], id) == None;
    assert ApplyCore(before[id := v], core[1..]).Some?;
  }

  /** Supplying a stored row again without its link loses the link, and the manifest does not show it. */
  lemma {:induction false} LinkCanBeLost(cfg: Config, key: string, owner: RunOwner, content: string, link: Link, kind: string)
    ensures var id := DraftId(key);
            var before: Rows := map[id := Plain(owner, content, Some(link))];
            var core := [CoreRow(id, Some(Plain(owner, content, None)))];
            && CoreOk(core) && AllFit(before) && Commit(cfg, before, kind, core).Some?
            && Lookup(Commit(cfg, before, kind, core).value, id) == Some(Plain(owner, content, None))
            && id !in Changed(before, Prepared(cfg, before, core).value)
  {
    var id := DraftId(key);
    var before: Rows := map[id := Plain(owner, content, Some(link))];
    var core := [CoreRow(id, Some(Plain(owner, content, None)))];
    OneRowSupplied(cfg, before, kind, id, Plain(owner, content, None));
    IdleRewriteShows(cfg, before, kind, core, id);
  }

  // ---------- Chains of commits ----------

  function QuotaShown(quotas: map<Id, nat>, id: Id): Option<Projection> {
    if id in quotas then Some(QuotaBody(quotas[id], 0)) else None
  }

  /** The quota rows are exactly those the usage calls for. */
  ghost predicate QuotasOk(cfg: Config, rows: Rows)
    requires AllFit(rows)
  {
    var quotas := DesiredQuotas(cfg, rows);
    forall id: Id :: id.QuotaId? ==> Shown(rows, id) == QuotaShown(quotas, id)
  }

  /** The proof of commit i links to the one before it. */
  predicate ProofOk(cfg: Config, rows: Rows, i: nat)
    requires AllFit(rows) && ProofId(i) in rows
  {
    var proof := rows[ProofId(i)];
    && proof.body.sequence == i && proof.changeDigest == cfg.changeHash(proof.body)
    && (if i <= 1 then proof.body.predecessor == None
        else ProofId(i - 1) in rows && proof.body.predecessor == Some(Link(i - 1, rows[ProofId(i - 1)].changeDigest)))
  }

  /** Proofs 1 to n, each linked to the one before, and the header at the last. */
  ghost predicate ChainOk(cfg: Config, rows: Rows)
    requires AllFit(rows)
  {
    && HasProof(rows)
    && var n := rows[HeaderId].latest.sequence;
       && n >= 1 && rows[HeaderId].latest.changeDigest == rows[ProofId(n)].changeDigest
       && (forall i: nat :: ProofId(i) in rows <==> 1 <= i <= n)
       && (forall i :: 1 <= i <= n ==> ProofOk(cfg, rows, i))
  }

  /** What the manifests of the first n commits say the digest of a row is. */
  ghost function Replay(rows: Rows, n: nat, id: Id): Option<string>
    requires AllFit(rows) && forall i :: 1 <= i <= n ==> ProofId(i) in rows
  {
    if n == 0 then None
    else if id in rows[ProofId(n)].body.changes then rows[ProofId(n)].body.changes[id].after
    else Replay(rows, n - 1, id)
  }

  ghost predicate ReplayOk(cfg: Config, rows: Rows)
    requires AllFit(rows) && ChainOk(cfg, rows)
  {
    forall id :: !IsControl(id) ==> Replay(rows, rows[HeaderId].latest.sequence, id) == Digest(cfg, rows, id)
  }

  ghost predicate StoreInv(cfg: Config, rows: Rows) {
    AllFit(rows) && QuotasOk(cfg, rows) && ChainOk(cfg, rows) && ReplayOk(cfg, rows)
  }

  /** A store that was never committed to, or one whose last commit left everything in order. */
  ghost predicate Reachable(cfg: Config, rows: Rows) {
    rows == map[] || StoreInv(cfg, rows)
  }

  lemma {:induction false} PreparedFits(cfg: Config, before: Rows, core: seq<CoreRow>)
    requires AllFit(before) && CoreOk(core) && Prepared(cfg, before, core).Some?
    ensures AllFit(Prepared(cfg, before, core).value)
  {
    CoreFits(before, core);
    var after := Prepared(cfg, before, core).value;
    forall id | id in after
      ensures Fits(id, after[id])
    {
      PreparedRow(cfg, before, core, id);
      assert Lookup(after, id) == Some(after[id]);
      if !id.QuotaId? {
        assert Lookup(ApplyCore(before, core).value, id) == Some(after[id]);
      }
    }
  }

  lemma {:induction false} SealedFits(cfg: Config, before: Rows, after: Rows, kind: string)
    requires AllFit(before) && AllFit(after)
    ensures AllFit(Seal(cfg, before, after, kind))
  {
    var t := Seal(cfg, before, after, kind);
    forall id | id in t
      ensures Fits(id, t[id])
    {
      if !IsControl(id) {
        SealedRow(cfg, before, after, kind, id);
        ProjectIgnoresLinks(id, after[id], t[HeaderId].latest);
      }
    }
  }

  lemma {:induction false} CommitFits(cfg: Config, before: Rows, kind: string, core: seq<CoreRow>)
    requires AllFit(before) && CoreOk(core) && Commit(cfg, before, kind, core).Some?
    ensures AllFit(Commit(cfg, before, kind, core).value)
  {
    PreparedFits(cfg, before, core);
    SealedFits(cfg, before, Prepared(cfg, before, core).value, kind);
  }

  lemma {:induction false} CommitKeepsData(cfg: Config, before: Rows, kind: string, core: seq<CoreRow>)
    requires AllFit(before) && CoreOk(core) && Commit(cfg, before, kind, core).Some?
    ensures SameData(ApplyCore(before, core).value, Commit(cfg, before, kind, core).value)
  {
    var rows := ApplyCore(before, core).value;
    var prepared := Prepared(cfg, before, core).value;
    var after := Commit(cfg, before, kind, core).value;
    forall id | IsData(id)
      ensures (id in rows <==> id in after) && (id in rows && id in after ==> Project(rows[id]) == Project(after[id]))
    {
      PreparedRow(cfg, before, core, id);
      SealedRow(cfg, before, prepared, kind, id);
      assert Lookup(prepared, id) == Lookup(rows, id);
    }
  }

  lemma {:induction false} QuotaRowSettled(cfg: Config, before: Rows, kind: string, core: seq<CoreRow>, id: Id)
    requires AllFit(before) && CoreOk(core) && Commit(cfg, before, kind, core).Some? && id.QuotaId?
    requires AllFit(ApplyCore(before, core).value)
    ensures var quotas := DesiredQuotas(cfg, ApplyCore(before, core).value);
            Shown(Commit(cfg, before, kind, core).value, id) == QuotaShown(quotas, id)
  {
    var quotas := DesiredQuotas(cfg, ApplyCore(before, core).value);
    var prepared := Prepared(cfg, before, core).value;
    PreparedRow(cfg, before, core, id);
    SealedRow(cfg, before, prepared, kind, id);
    if id in quotas {
      assert prepared[id] == QuotaRow(before, id, quotas[id]);
      QuotaRowShows(before, id, quotas[id]);
    }
  }

  lemma {:induction false} QuotaRowShows(before: Rows, id: Id, used: nat)
    ensures Project(QuotaRow(before, id, used)) == QuotaBody(used, 0)
  {
  }

  /** Quota rows equal the usage recomputed from the rows they are stored with. */
  lemma {:induction false} CommitSettlesQuotas(cfg: Config, before: Rows, kind: string, core: seq<CoreRow>)
    requires AllFit(before) && CoreOk(core) && Commit(cfg, before, kind, core).Some?
    ensures AllFit(Commit(cfg, before, kind, core).value) && QuotasOk(cfg, Commit(cfg, before, kind, core).value)
  {
    var rows := ApplyCore(before, core).value;
    var after := Commit(cfg, before, kind, core).value;
    CommitFits(cfg, before, kind, core);
    CoreFits(before, core);
    CommitKeepsData(cfg, before, kind, core);
    SameDataSameQuotas(cfg, rows, after);
    var quotas := DesiredQuotas(cfg, rows);
    forall id: Id | id.QuotaId?
      ensures Shown(after, id) == QuotaShown(quotas, id)
    {
      QuotaRowSettled(cfg, before, kind, core, id);
    }
  }

  /** Earlier proofs stay as they are, and the new one is at the next sequence. */
  lemma {:induction false} CommitExtendsProofs(cfg: Config, before: Rows, kind: string, core: seq<CoreRow>, i: nat)
    requires AllFit(before) && CoreOk(core) && Commit(cfg, before, kind, core).Some?
    ensures var after := Commit(cfg, before, kind, core).value;
            var n := NextSequence(before);
            && HasProof(after) && after[HeaderId].latest.sequence == n
            && (i != n ==> Lookup(after, ProofId(i)) == Lookup(before, ProofId(i)))
            && after[ProofId(n)].body.sequence == n && after[ProofId(n)].body.predecessor == Predecessor(before)
            && after[ProofId(n)].changeDigest == after[HeaderId].latest.changeDigest == cfg.changeHash(after[ProofId(n)].body)
  {
    ControlUntouched(cfg, before, core, ProofId(i));
  }

  /** `after` has the proofs of `before` and one more. */
  ghost predicate Extends(cfg: Config, before: Rows, after: Rows)
    requires AllFit(before)
  {
    var n := NextSequence(before);
    && HasProof(after) && after[HeaderId].latest.sequence == n
    && (forall i: nat :: i != n ==> Lookup(after, ProofId(i)) == Lookup(before, ProofId(i)))
    && after[ProofId(n)].body.sequence == n && after[ProofId(n)].body.predecessor == Predecessor(before)
    && after[ProofId(n)].changeDigest == after[HeaderId].latest.changeDigest == cfg.changeHash(after[ProofId(n)].body)
  }

  lemma {:induction false} CommitExtends(cfg: Config, before: Rows, kind: string, core: seq<CoreRow>)
    requires AllFit(before) && CoreOk(core) && Commit(cfg, before, kind, core).Some?
    ensures Extends(cfg, before, Commit(cfg, before, kind, core).value)
  {
    CommitExtendsProofs(cfg, before, kind, core, 0);
    forall i: nat | i != NextSequence(before)
      ensures Lookup(Commit(cfg, before, kind, core).value, ProofId(i)) == Lookup(before, ProofId(i))
    {
      CommitExtendsProofs(cfg, before, kind, core, i);
    }
  }

  lemma {:induction false} ExtendsKeepsChain(cfg: Config, before: Rows, after: Rows)
    requires AllFit(before) && AllFit(after) && (before == map[] || ChainOk(cfg, before)) && Extends(cfg, before, after)
    ensures ChainOk(cfg, after)
  {
    var n := NextSequence(before);
    forall i: nat
      ensures ProofId(i) in after <==> 1 <= i <= n
    {
      assert i != n ==> Lookup(after, ProofId(i)) == Lookup(before, ProofId(i));
    }
    forall i: nat | 1 <= i <= n
      ensures ProofOk(cfg, after, i)
    {
      if i > 1 {
        assert Lookup(after, ProofId(i - 1)) == Lookup(before, ProofId(i - 1));
      }
      if i < n {
        assert Lookup(after, ProofId(i)) == Lookup(before, ProofId(i));
        assert ProofOk(cfg, before, i);
      }
    }
  }

  lemma {:induction false} ReplayExtends(before: Rows, after: Rows, n: nat, id: Id)
    requires AllFit(before) && AllFit(after)
    requires forall i :: 1 <= i <= n ==> ProofId(i) in before && ProofId(i) in after && before[ProofId(i)] == after[ProofId(i)]
    ensures Replay(after, n, id) == Replay(before, n, id)
    decreases n
  {
    if n > 0 {
      ReplayExtends(before, after, n - 1, id);
    }
  }

  /** The last manifest accounts for a row, and the earlier ones for it before that. */
  lemma {:induction false} ExtendsKeepsReplay(cfg: Config, before: Rows, after: Rows, id: Id)
    requires AllFit(before) && AllFit(after) && Extends(cfg, before, after) && ChainOk(cfg, after)
    requires before == map[] || (ChainOk(cfg, before) && Replay(before, before[HeaderId].latest.sequence, id) == Digest(cfg, before, id))
    requires id in Changes(after) ==> Changes(after)[id].after == Digest(cfg, after, id)
    requires id !in Changes(after) ==> Digest(cfg, before, id) == Digest(cfg, after, id)
    ensures Replay(after, after[HeaderId].latest.sequence, id) == Digest(cfg, after, id)
  {
    var n := NextSequence(before);
    forall i: nat | 1 <= i <= n - 1
      ensures ProofId(i) in before && ProofId(i) in after && before[ProofId(i)] == after[ProofId(i)]
    {
      assert Lookup(after, ProofId(i)) == Lookup(before, ProofId(i));
    }
    ReplayExtends(before, after, n - 1, id);
  }

  /** Every commit leaves the store in order; the manifests alone determine the digest of every row. */
  lemma {:induction false} CommitKeepsStoreInv(cfg: Config, before: Rows, kind: string, core: seq<CoreRow>)
    requires Reachable(cfg, before) && CoreOk(core) && Commit(cfg, before, kind, core).Some?
    ensures StoreInv(cfg, Commit(cfg, before, kind, core).value)
  {
    var after := Commit(cfg, before, kind, core).value;
    CommitSettlesQuotas(cfg, before, kind, core);
    CommitExtends(cfg, before, kind, core);
    ExtendsKeepsChain(cfg, before, after);
    forall id | !IsControl(id)
      ensures Replay(after, after[HeaderId].latest.sequence, id) == Digest(cfg, after, id)
    {
      ManifestMatchesStore(cfg, before, kind, core, id);
      ExtendsKeepsReplay(cfg, before, after, id);
    }
  }

  datatype Command = Command(kind: string, core: seq<CoreRow>)

  /** Commit after commit; a failing one ends the chain. */
  ghost function CommitAll(cfg: Config, rows: Rows, commands: seq<Command>): Option<Rows>
    requires Reachable(cfg, rows) && CoresOk(commands)
    decreases |commands|
  {
    if commands == [] then Some(rows) else
    var next := Commit(cfg, rows, commands[0].kind, commands[0].core);
    if next.None? then None else
    CommitKeepsStoreInv(cfg, rows, commands[0].kind, commands[0].core);
    CommitAll(cfg, next.value, commands[1..])
  }

  /** In order, with the bytes of the workspace equal to the sum over the runs. */
  ghost predicate InOrder(cfg: Config, rows: Rows) {
    && StoreInv(cfg, rows)
    && Shown(rows, QuotaId(Workspace, PreparationBytes)) == Some(QuotaBody(SumOfRuns(cfg, rows, Owners(rows)), 0))
  }

  lemma {:induction false} StoreInvGivesSum(cfg: Config, rows: Rows)
    requires StoreInv(cfg, rows)
    ensures InOrder(cfg, rows)
  {
    WorkspaceBytesAreTheSumOverRuns(cfg, rows);
    assert QuotaId(Workspace, PreparationBytes) in QuotaIds(rows);
  }

  function Length(rows: Rows): nat
    requires AllFit(rows)
  {
    NextSequence(rows) - 1
  }

  ghost predicate CoresOk(commands: seq<Command>) {
    forall c :: c in commands ==> CoreOk(c.core)
  }

  lemma {:induction false} ChainFrom(cfg: Config, rows: Rows, commands: seq<Command>)
    requires Reachable(cfg, rows) && CoresOk(commands)
    requires CommitAll(cfg, rows, commands).Some? && (commands != [] || rows != map[])
    ensures InOrder(cfg, CommitAll(cfg, rows, commands).value)
    ensures Length(CommitAll(cfg, rows, commands).value) == Length(rows) + |commands|
    decreases |commands|
  {
    if commands == [] {
      StoreInvGivesSum(cfg, rows);
    } else {
      var next := Commit(cfg, rows, commands[0].kind, commands[0].core).value;
      CommitKeepsStoreInv(cfg, rows, commands[0].kind, commands[0].core);
      CommitExtends(cfg, rows, commands[0].kind, commands[0].core);
      ChainFrom(cfg, next, commands[1..]);
    }
  }

  /**
   After any chain of commits on an empty store: the proofs form a chain with steps of
   one, the manifests determine every row's digest, the quota rows equal the usage, and
   the bytes of the workspace are the sum over the runs.
   */
  lemma {:induction false} EveryChainIsInOrder(cfg: Config, commands: seq<Command>)
    requires commands != [] && CoresOk(commands)
    ensures var r := CommitAll(cfg, map[], commands);
            r.Some? ==> InOrder(cfg, r.value) && Length(r.value) == |commands|
  {
    if CommitAll(cfg, map[], commands).Some? {
      ChainFrom(cfg, map[], commands);
    }
  }
}
