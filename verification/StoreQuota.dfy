/**
 The rows of the hierarchy store, the projection that leaves commit links out of
 what is hashed and counted, and the quota usage recomputed from the rows.
 */
module StoreQuota {
  import opened Wrappers

  // ---------- Rows ----------

  datatype Link = Link(sequence: nat, changeDigest: string)

  datatype Change = Change(before: Option<string>, after: Option<string>)

  datatype Manifest = Manifest(sequence: nat, predecessor: Option<Link>, kind: string, changes: map<Id, Change>)

  datatype RunOwner = RunOwner(workspace: string, run: string)

  datatype QuotaOwner = Workspace | Run(run: RunOwner) | Assignment(identity: string)

  datatype Resource =
    | ReceiptBytes | AssignmentBytes | ResultBytes
    | SummaryBytes | SummaryCount | LineageBytes | PendingCount
    | PreparationBytes | PreparationRuns

  datatype Id =
    | HeaderId
    | ProofId(sequence: nat)
    | DraftId(key: string)
    | PreparationId(key: string)
    | RunStateId(key: string)
    | AttachmentId(key: string)
    | ArtifactId(owner: RunOwner, reference: string)
    | SummaryId(key: string)
    | QuotaId(subject: QuotaOwner, resource: Resource)

  datatype Checkpoint = Checkpoint(material: string, applied: Option<Link>)

  datatype Value =
    | Header(latest: Link)
    | Proof(body: Manifest, changeDigest: string)
    | Plain(owner: RunOwner, content: string, lastCommit: Option<Link>)
    | Preparation(owner: RunOwner, identity: string, content: string, commit: Option<Link>, lastCommit: Option<Link>)
    | Summary(row: Option<string>, checkpoint: Option<Checkpoint>, content: string, lastCommit: Option<Link>)
    | Quota(used: nat, reserved: nat, lastCommit: Option<Link>)

  type Rows = map<Id, Value>

  /** Which values a table holds. */
  predicate Fits(id: Id, v: Value) {
    match id
    case HeaderId => v.Header?
    case ProofId(_) => v.Proof?
    case DraftId(_) => v.Plain?
    case PreparationId(_) => v.Preparation?
    case RunStateId(_) => v.Plain?
    case AttachmentId(_) => v.Plain?
    case ArtifactId(_, _) => v.Plain?
    case SummaryId(_) => v.Summary?
    case QuotaId(_, _) => v.Quota?
  }

  predicate AllFit(rows: Rows) {
    forall id :: id in rows ==> Fits(id, rows[id])
  }

  predicate IsControl(id: Id) {
    id.HeaderId? || id.ProofId?
  }

  /** Rows that callers supply: neither bookkeeping nor quota rows. */
  predicate IsData(id: Id) {
    !IsControl(id) && !id.QuotaId?
  }

  predicate IsPreparation(id: Id) {
    id.DraftId? || id.PreparationId? || id.RunStateId? || id.AttachmentId? || id.ArtifactId?
  }

  /** Artifacts belong to the run in their key, all other preparation rows to the run in their value. */
  function OwnerFor(id: Id, v: Value): RunOwner
    requires IsPreparation(id) && Fits(id, v)
  {
    if id.ArtifactId? then id.owner else v.owner
  }

  // ---------- Links and the projection ----------

  /** A row's value with its commit links deleted. */
  datatype Projection =
    | HeaderBody(latest: Link)
    | ProofBody(body: Manifest, changeDigest: string)
    | PlainBody(owner: RunOwner, content: string)
    | PreparationBody(owner: RunOwner, identity: string, content: string)
    | SummaryBody(row: Option<string>, material: Option<string>, content: string)
    | QuotaBody(used: nat, reserved: nat)

  /** Header and proofs have no links; a preparation has one in its receipt too, a summary one in its checkpoint if there is one. */
  function Project(v: Value): Projection {
    match v
    case Header(latest) => HeaderBody(latest)
    case Proof(body, changeDigest) => ProofBody(body, changeDigest)
    case Plain(owner, content, _) => PlainBody(owner, content)
    case Preparation(owner, identity, content, _, _) => PreparationBody(owner, identity, content)
    case Summary(row, checkpoint, content, _) =>
      SummaryBody(row, if checkpoint.Some? then Some(checkpoint.value.material) else None, content)
    case Quota(used, reserved, _) => QuotaBody(used, reserved)
  }

  /** The link of the last commit, which every row but header and proofs has. */
  function SetLastCommit(v: Value, link: Link): Value {
    match v
    case Plain(owner, content, _) => Plain(owner, content, Some(link))
    case Preparation(owner, identity, content, commit, _) => Preparation(owner, identity, content, commit, Some(link))
    case Summary(row, checkpoint, content, _) => Summary(row, checkpoint, content, Some(link))
    case Quota(used, reserved, _) => Quota(used, reserved, Some(link))
    case _ => v
  }

  /** Write a commit's link into a changed row: as its last commit, then into a preparation's receipt or a summary's checkpoint. */
  function Relink(v: Value, link: Link): Value {
    var stamped := SetLastCommit(v, link);
    if stamped.Preparation? then stamped.(commit := Some(link))
    else if stamped.Summary? && stamped.checkpoint.Some? then
      stamped.(checkpoint := Some(Checkpoint(stamped.checkpoint.value.material, Some(link))))
    else stamped
  }

  /** The links can be written after hashing: they are not part of what is hashed. */
  lemma {:induction false} ProjectIgnoresLinks(id: Id, v: Value, link: Link)
    ensures Project(Relink(v, link)) == Project(v)
    ensures Fits(id, v) <==> Fits(id, Relink(v, link))
  {
  }

  /** What the projection deletes is exactly what writing a link replaces. */
  lemma {:induction false} LinksAreWhatIsDeleted(v: Value, w: Value, link: Link)
    ensures Relink(v, link) == Relink(w, link) <==> Project(v) == Project(w)
  {
  }

  /** The digests and sizes, as functions of what they digest and measure. */
  datatype Config = Config(
    rowHash: (Id, Projection) -> string,
    changeHash: Manifest -> string,
    weight: (Id, Projection) -> nat,
    size: string -> nat)

  // ---------- Sums ----------

  ghost function Sum(ids: set<Id>, w: map<Id, nat>): nat
    requires ids <= w.Keys
  {
    if ids == {} then 0 else
    var id :| id in ids;
    w[id] + Sum(ids - {id}, w)
  }

  lemma {:induction false} SumRemove(ids: set<Id>, w: map<Id, nat>, id: Id)
    requires ids <= w.Keys && id in ids
    ensures Sum(ids, w) == w[id] + Sum(ids - {id}, w)
    decreases ids
  {
    var first :| first in ids && Sum(ids, w) == w[first] + Sum(ids - {first}, w);
    if first != id {
      SumRemove(ids - {first}, w, id);
      SumRemove(ids - {id}, w, first);
      assert ids - {first} - {id} == ids - {id} - {first};
    }
  }

  lemma {:induction false} SumSplit(ids: set<Id>, part: set<Id>, w: map<Id, nat>)
    requires ids <= w.Keys && part <= ids
    ensures Sum(ids, w) == Sum(part, w) + Sum(ids - part, w)
    decreases part
  {
    if part == {} {
      assert ids - part == ids;
    } else {
      var id :| id in part;
      SumSplit(ids - {id}, part - {id}, w);
      SumRemove(ids, w, id);
      SumRemove(part, w, id);
      assert ids - {id} - (part - {id}) == ids - part;
    }
  }

  // ---------- Usage ----------

  /** What each preparation row counts for. */
  function Weights(cfg: Config, rows: Rows): map<Id, nat> {
    map id | id in rows && IsPreparation(id) :: cfg.weight(id, Project(rows[id]))
  }

  function Owners(rows: Rows): set<RunOwner>
    requires AllFit(rows)
  {
    set id | id in rows && IsPreparation(id) :: OwnerFor(id, rows[id])
  }

  function OwnedBy(rows: Rows, owner: RunOwner): set<Id>
    requires AllFit(rows)
  {
    set id | id in rows && IsPreparation(id) && OwnerFor(id, rows[id]) == owner
  }

  function PreparationIds(rows: Rows): set<Id> {
    set id | id in rows && IsPreparation(id)
  }

  function RunIds(rows: Rows): set<string>
    requires AllFit(rows)
  {
    set id | id in rows && (id.DraftId? || id.PreparationId?) :: rows[id].owner.run
  }

  function SummaryRows(cfg: Config, rows: Rows): map<Id, nat>
    requires AllFit(rows)
  {
    map id | id in rows && id.SummaryId? && rows[id].row.Some? :: cfg.size(rows[id].row.value)
  }

  function Lineage(cfg: Config, rows: Rows): map<Id, nat>
    requires AllFit(rows)
  {
    map id | id in rows && id.SummaryId? && rows[id].checkpoint.Some? :: cfg.size(rows[id].checkpoint.value.material)
  }

  const ReportResources: set<Resource> := {ReceiptBytes, AssignmentBytes, ResultBytes}

  const AllResources: set<Resource> :=
    ReportResources + {SummaryBytes, SummaryCount, LineageBytes, PendingCount, PreparationBytes, PreparationRuns}

  const WorkspaceKeys: set<Id> := set r | r in AllResources :: QuotaId(Workspace, r)

  function RunKeys(owners: set<RunOwner>): set<Id> {
    set o | o in owners :: QuotaId(Run(o), PreparationBytes)
  }

  function Preparations(rows: Rows): set<Id> {
    set id | id in rows && id.PreparationId?
  }

  /** The report quotas of one preparation: for its assignment and for its run. */
  function ReportKeys(v: Value): set<Id>
    requires v.Preparation?
  {
    (set r | r in ReportResources :: QuotaId(Assignment(v.identity), r)) + (set r | r in ReportResources :: QuotaId(Run(v.owner), r))
  }

  function AllReportKeys(rows: Rows, ids: set<Id>): set<Id>
    requires AllFit(rows) && ids <= Preparations(rows)
  {
    set id, k | id in ids && k in ReportKeys(rows[id]) :: k
  }

  /** The quota rows there must be. */
  function QuotaIds(rows: Rows): set<Id>
    requires AllFit(rows)
  {
    WorkspaceKeys + RunKeys(Owners(rows)) + AllReportKeys(rows, Preparations(rows))
  }

  /** What each of them must say. */
  ghost function Used(cfg: Config, rows: Rows, subject: QuotaOwner, resource: Resource): nat
    requires AllFit(rows)
  {
    match resource
    case PreparationBytes =>
      if subject.Workspace? then Sum(PreparationIds(rows), Weights(cfg, rows))
      else if subject.Run? then Sum(OwnedBy(rows, subject.run), Weights(cfg, rows))
      else 0
    case PreparationRuns => if subject.Workspace? then |RunIds(rows)| else 0
    case SummaryCount => if subject.Workspace? then |SummaryRows(cfg, rows)| else 0
    case SummaryBytes => if subject.Workspace? then Sum(SummaryRows(cfg, rows).Keys, SummaryRows(cfg, rows)) else 0
    case LineageBytes => if subject.Workspace? then Sum(Lineage(cfg, rows).Keys, Lineage(cfg, rows)) else 0
    case _ => 0
  }

  ghost function DesiredQuotas(cfg: Config, rows: Rows): map<Id, nat>
    requires AllFit(rows)
  {
    map id | id in QuotaIds(rows) :: Used(cfg, rows, id.subject, id.resource)
  }

  // ---------- What each row counts for ----------

  lemma {:induction false} SumSame(ids: set<Id>, w: map<Id, nat>, w': map<Id, nat>)
    requires ids <= w.Keys && ids <= w'.Keys && forall id :: id in ids ==> w[id] == w'[id]
    ensures Sum(ids, w) == Sum(ids, w')
    decreases ids
  {
    if ids != {} {
      var id :| id in ids && Sum(ids, w) == w[id] + Sum(ids - {id}, w);
      SumSame(ids - {id}, w, w');
      SumRemove(ids, w', id);
    }
  }

  lemma {:induction false} SumAdd(ids: set<Id>, w: map<Id, nat>, id: Id, n: nat)
    requires ids <= w.Keys && id !in ids
    ensures Sum(ids + {id}, w[id := n]) == Sum(ids, w) + n
  {
    SumRemove(ids + {id}, w[id := n], id);
    assert ids + {id} - {id} == ids;
    SumSame(ids, w, w[id := n]);
  }

  lemma {:induction false} WorkspaceRowCounts(cfg: Config, rows: Rows, id: Id, v: Value)
    requires AllFit(rows) && id !in rows && Fits(id, v)
    ensures Used(cfg, rows[id := v], Workspace, PreparationBytes)
         == Used(cfg, rows, Workspace, PreparationBytes) + if IsPreparation(id) then cfg.weight(id, Project(v)) else 0
  {
    var rows' := rows[id := v];
    var w, w' := Weights(cfg, rows), Weights(cfg, rows');
    if IsPreparation(id) {
      var n := cfg.weight(id, Project(v));
      assert w' == w[id := n];
      SumAdd(PreparationIds(rows), w, id, n);
      assert PreparationIds(rows') == PreparationIds(rows) + {id};
    } else {
      assert w' == w;
      assert PreparationIds(rows') == PreparationIds(rows);
    }
  }

  lemma {:induction false} OwnedRowCounts(cfg: Config, rows: Rows, id: Id, v: Value, o: RunOwner)
    requires AllFit(rows) && id !in rows && Fits(id, v)
    ensures Used(cfg, rows[id := v], Run(o), PreparationBytes) == Used(cfg, rows, Run(o), PreparationBytes)
         + if IsPreparation(id) && OwnerFor(id, v) == o then cfg.weight(id, Project(v)) else 0
  {
    var rows' := rows[id := v];
    var w, w' := Weights(cfg, rows), Weights(cfg, rows');
    if IsPreparation(id) && OwnerFor(id, v) == o {
      var n := cfg.weight(id, Project(v));
      assert w' == w[id := n];
      SumAdd(OwnedBy(rows, o), w, id, n);
      assert OwnedBy(rows', o) == OwnedBy(rows, o) + {id};
    } else {
      assert OwnedBy(rows', o) == OwnedBy(rows, o);
      SumSame(OwnedBy(rows, o), w, w');
    }
  }

  /** A new row of one of the five preparation tables adds its weight to the workspace and to the run that owns it, any other row nothing. */
  lemma {:induction false} PreparationRowCounts(cfg: Config, rows: Rows, id: Id, v: Value, o: RunOwner)
    requires AllFit(rows) && id !in rows && Fits(id, v)
    ensures Used(cfg, rows[id := v], Workspace, PreparationBytes) == Used(cfg, rows, Workspace, PreparationBytes)
         + match id
           case DraftId(_) => cfg.weight(id, Project(v))
           case PreparationId(_) => cfg.weight(id, Project(v))
           case RunStateId(_) => cfg.weight(id, Project(v))
           case AttachmentId(_) => cfg.weight(id, Project(v))
           case ArtifactId(_, _) => cfg.weight(id, Project(v))
           case _ => 0
    ensures Used(cfg, rows[id := v], Run(o), PreparationBytes) == Used(cfg, rows, Run(o), PreparationBytes)
         + match id
           case DraftId(_) => if v.owner == o then cfg.weight(id, Project(v)) else 0
           case PreparationId(_) => if v.owner == o then cfg.weight(id, Project(v)) else 0
           case RunStateId(_) => if v.owner == o then cfg.weight(id, Project(v)) else 0
           case AttachmentId(_) => if v.owner == o then cfg.weight(id, Project(v)) else 0
           case ArtifactId(owner, _) => if owner == o then cfg.weight(id, Project(v)) else 0
           case _ => 0
  {
    WorkspaceRowCounts(cfg, rows, id, v);
    OwnedRowCounts(cfg, rows, id, v, o);
  }

  lemma {:induction false} RunIdsAdd(rows: Rows, id: Id, v: Value)
    requires AllFit(rows) && id !in rows && Fits(id, v)
    ensures RunIds(rows[id := v]) == RunIds(rows) + if id.DraftId? || id.PreparationId? then {v.owner.run} else {}
  {
    var rows' := rows[id := v];
    forall run | run in RunIds(rows)
      ensures run in RunIds(rows')
    {
      var k :| k in rows && (k.DraftId? || k.PreparationId?) && rows[k].owner.run == run;
      assert rows'[k] == rows[k];
    }
    assert rows'[id] == v;
  }

  /** A new draft or preparation adds a run to the count unless another one names the same run. */
  lemma {:induction false} RunCounts(cfg: Config, rows: Rows, id: Id, v: Value)
    requires AllFit(rows) && id !in rows && Fits(id, v)
    ensures Used(cfg, rows[id := v], Workspace, PreparationRuns) == Used(cfg, rows, Workspace, PreparationRuns)
         + if (id.DraftId? || id.PreparationId?)
              && !exists k :: k in rows && (k.DraftId? || k.PreparationId?) && rows[k].owner.run == v.owner.run then 1 else 0
  {
    RunIdsAdd(rows, id, v);
    if id.DraftId? || id.PreparationId? {
      var run, ids := v.owner.run, RunIds(rows);
      assert run in ids <==> exists k :: k in rows && (k.DraftId? || k.PreparationId?) && rows[k].owner.run == run;
      if run in ids {
        assert ids + {run} == ids;
      }
    }
  }

  /** One more entry in a map of sizes. */
  lemma {:induction false} EntryAdd(w: map<Id, nat>, id: Id, n: nat)
    requires id !in w
    ensures |w[id := n]| == |w| + 1
    ensures Sum(w[id := n].Keys, w[id := n]) == Sum(w.Keys, w) + n
  {
    assert w[id := n].Keys == w.Keys + {id};
    SumAdd(w.Keys, w, id, n);
    assert |w[id := n]| == |w[id := n].Keys| && |w| == |w.Keys|;
  }

  lemma {:induction false} SummaryRowsAdd(cfg: Config, rows: Rows, id: Id, v: Value)
    requires AllFit(rows) && id !in rows && Fits(id, v)
    ensures SummaryRows(cfg, rows[id := v])
         == if id.SummaryId? && v.row.Some? then SummaryRows(cfg, rows)[id := cfg.size(v.row.value)] else SummaryRows(cfg, rows)
  {
  }

  lemma {:induction false} LineageAdd(cfg: Config, rows: Rows, id: Id, v: Value)
    requires AllFit(rows) && id !in rows && Fits(id, v)
    ensures Lineage(cfg, rows[id := v])
         == if id.SummaryId? && v.checkpoint.Some? then Lineage(cfg, rows)[id := cfg.size(v.checkpoint.value.material)] else Lineage(cfg, rows)
  {
  }

  /** A new summary counts once, by its row's size, if it has a row, and towards the lineage by its checkpoint's material. */
  lemma {:induction false} SummaryCounts(cfg: Config, rows: Rows, id: Id, v: Value)
    requires AllFit(rows) && id !in rows && Fits(id, v)
    ensures Used(cfg, rows[id := v], Workspace, SummaryCount) == Used(cfg, rows, Workspace, SummaryCount)
         + if id.SummaryId? && v.row.Some? then 1 else 0
    ensures Used(cfg, rows[id := v], Workspace, SummaryBytes) == Used(cfg, rows, Workspace, SummaryBytes)
         + if id.SummaryId? && v.row.Some? then cfg.size(v.row.value) else 0
    ensures Used(cfg, rows[id := v], Workspace, LineageBytes) == Used(cfg, rows, Workspace, LineageBytes)
         + if id.SummaryId? && v.checkpoint.Some? then cfg.size(v.checkpoint.value.material) else 0
  {
    SummaryRowsAdd(cfg, rows, id, v);
    LineageAdd(cfg, rows, id, v);
    if id.SummaryId? && v.row.Some? {
      EntryAdd(SummaryRows(cfg, rows), id, cfg.size(v.row.value));
    }
    if id.SummaryId? && v.checkpoint.Some? {
      EntryAdd(Lineage(cfg, rows), id, cfg.size(v.checkpoint.value.material));
    }
  }

  /** What no row counts for: nothing is used in an empty store, and the report and pending resources are never used. */
  lemma {:induction false} NothingElseCounts(cfg: Config, rows: Rows, subject: QuotaOwner, resource: Resource)
    requires AllFit(rows)
    requires || rows == map[] || subject.Assignment?
             || resource in {ReceiptBytes, AssignmentBytes, ResultBytes, PendingCount}
             || (subject.Run? && resource != PreparationBytes)
    ensures Used(cfg, rows, subject, resource) == 0
  {
    if rows == map[] {
      assert PreparationIds(rows) == {} && RunIds(rows) == {};
      assert forall o :: OwnedBy(rows, o) == {};
      assert SummaryRows(cfg, rows) == map[] && Lineage(cfg, rows) == map[];
    }
  }

  /** Which quota rows there are: all of the workspace's, the bytes of each run that owns a row, and the reports of each preparation. */
  lemma {:induction false} QuotaRowsIff(rows: Rows, subject: QuotaOwner, resource: Resource)
    requires AllFit(rows)
    ensures QuotaId(subject, resource) in QuotaIds(rows) <==>
            || subject.Workspace?
            || (&& subject.Run? && resource == PreparationBytes
                && exists id :: id in rows && IsPreparation(id) && OwnerFor(id, rows[id]) == subject.run)
            || (&& resource in {ReceiptBytes, AssignmentBytes, ResultBytes}
                && exists id :: id in rows && id.PreparationId?
                                && (subject == Assignment(rows[id].identity) || subject == Run(rows[id].owner)))
  {
    var q := QuotaId(subject, resource);
    assert resource in AllResources;
    assert q in WorkspaceKeys <==> subject.Workspace?;
    assert q in RunKeys(Owners(rows)) <==> subject.Run? && resource == PreparationBytes && subject.run in Owners(rows);
    forall id | id in Preparations(rows)
      ensures q in ReportKeys(rows[id]) <==> resource in ReportResources && (subject == Assignment(rows[id].identity) || subject == Run(rows[id].owner))
    {
    }
  }

  /** The usage of the workspace is the sum of the usages of the runs. */
  ghost function SumOfRuns(cfg: Config, rows: Rows, owners: set<RunOwner>): nat
    requires AllFit(rows)
  {
    if owners == {} then 0 else
    var o :| o in owners;
    Used(cfg, rows, Run(o), PreparationBytes) + SumOfRuns(cfg, rows, owners - {o})
  }

  function OwnedByAny(rows: Rows, owners: set<RunOwner>): set<Id>
    requires AllFit(rows)
  {
    set id | id in rows && IsPreparation(id) && OwnerFor(id, rows[id]) in owners
  }

  lemma {:induction false} RunsPartition(cfg: Config, rows: Rows, owners: set<RunOwner>)
    requires AllFit(rows)
    ensures SumOfRuns(cfg, rows, owners) == Sum(OwnedByAny(rows, owners), Weights(cfg, rows))
    decreases owners
  {
    var w := Weights(cfg, rows);
    var ids := OwnedByAny(rows, owners);
    if owners == {} {
      assert ids == {};
    } else {
      var o :| o in owners && SumOfRuns(cfg, rows, owners)
        == Used(cfg, rows, Run(o), PreparationBytes) + SumOfRuns(cfg, rows, owners - {o});
      RunsPartition(cfg, rows, owners - {o});
      assert ids - OwnedBy(rows, o) == OwnedByAny(rows, owners - {o});
      SumSplit(ids, OwnedBy(rows, o), w);
      assert Used(cfg, rows, Run(o), PreparationBytes) == Sum(OwnedBy(rows, o), w);
      assert Sum(ids - OwnedBy(rows, o), w) == SumOfRuns(cfg, rows, owners - {o});
    }
  }

  lemma {:induction false} WorkspaceBytesAreTheSumOverRuns(cfg: Config, rows: Rows)
    requires AllFit(rows)
    ensures Used(cfg, rows, Workspace, PreparationBytes) == SumOfRuns(cfg, rows, Owners(rows))
  {
    RunsPartition(cfg, rows, Owners(rows));
    assert PreparationIds(rows) == OwnedByAny(rows, Owners(rows));
  }

  // ---------- Usage depends on the projections alone ----------

  ghost predicate SameData(a: Rows, b: Rows) {
    forall id :: IsData(id) ==> (id in a <==> id in b) && (id in a && id in b ==> Project(a[id]) == Project(b[id]))
  }

  /** What the usage looks at in a row survives the projection. */
  lemma {:induction false} ProjectionDecides(id: Id, a: Value, b: Value)
    requires Fits(id, a) && Fits(id, b) && Project(a) == Project(b)
    ensures IsPreparation(id) ==> OwnerFor(id, a) == OwnerFor(id, b)
    ensures id.PreparationId? ==> a.identity == b.identity && a.owner == b.owner
    ensures id.DraftId? ==> a.owner == b.owner
    ensures id.SummaryId? ==> a.row == b.row && a.checkpoint.Some? == b.checkpoint.Some?
    ensures id.SummaryId? && a.checkpoint.Some? ==> a.checkpoint.value.material == b.checkpoint.value.material
  {
  }

  lemma {:induction false} SameDataSameOwners(a: Rows, b: Rows)
    requires AllFit(a) && AllFit(b) && SameData(a, b)
    ensures PreparationIds(a) == PreparationIds(b) && Owners(a) == Owners(b) && RunIds(a) == RunIds(b)
    ensures forall o :: OwnedBy(a, o) == OwnedBy(b, o)
  {
    forall id | IsData(id) && id in a
      ensures id in b && (IsPreparation(id) ==> OwnerFor(id, a[id]) == OwnerFor(id, b[id]))
    {
      ProjectionDecides(id, a[id], b[id]);
    }
  }

  lemma {:induction false} SameDataSameSummaries(cfg: Config, a: Rows, b: Rows)
    requires AllFit(a) && AllFit(b) && SameData(a, b)
    ensures SummaryRows(cfg, a) == SummaryRows(cfg, b)
  {
    forall id | id in a && id.SummaryId?
      ensures id in b && a[id].row == b[id].row
    {
      ProjectionDecides(id, a[id], b[id]);
    }
    assert forall id: Id :: id.SummaryId? ==> (id in a <==> id in b);
  }

  lemma {:induction false} SameDataSameLineage(cfg: Config, a: Rows, b: Rows)
    requires AllFit(a) && AllFit(b) && SameData(a, b)
    ensures Lineage(cfg, a) == Lineage(cfg, b)
  {
    forall id | id in a && id.SummaryId?
      ensures id in b && a[id].checkpoint.Some? == b[id].checkpoint.Some?
      ensures a[id].checkpoint.Some? ==> a[id].checkpoint.value.material == b[id].checkpoint.value.material
    {
      ProjectionDecides(id, a[id], b[id]);
    }
    assert forall id: Id :: id.SummaryId? ==> (id in a <==> id in b);
  }

  lemma {:induction false} SameDataSameIds(a: Rows, b: Rows)
    requires AllFit(a) && AllFit(b) && SameData(a, b)
    ensures QuotaIds(a) == QuotaIds(b)
  {
    SameDataSameOwners(a, b);
    forall id | id in a && id.PreparationId?
      ensures id in b && ReportKeys(a[id]) == ReportKeys(b[id])
    {
      ProjectionDecides(id, a[id], b[id]);
    }
    assert forall id: Id :: id.PreparationId? ==> (id in a <==> id in b);
    assert AllReportKeys(a, Preparations(a)) == AllReportKeys(b, Preparations(b));
  }

  lemma {:induction false} SameDataSameWeights(cfg: Config, a: Rows, b: Rows)
    requires SameData(a, b)
    ensures Weights(cfg, a) == Weights(cfg, b)
  {
    forall id: Id | IsPreparation(id)
      ensures (id in a <==> id in b) && (id in a ==> Project(a[id]) == Project(b[id]))
    {
      assert IsData(id);
    }
    assert Weights(cfg, a).Keys == Weights(cfg, b).Keys;
  }

  lemma {:induction false} SameDataSameUsed(cfg: Config, a: Rows, b: Rows, subject: QuotaOwner, resource: Resource)
    requires AllFit(a) && AllFit(b) && SameData(a, b)
    ensures Used(cfg, a, subject, resource) == Used(cfg, b, subject, resource)
  {
    match resource {
      case PreparationBytes =>
        SameDataSameWeights(cfg, a, b);
        SameDataSameOwners(a, b);
      case PreparationRuns => SameDataSameOwners(a, b);
      case SummaryCount => SameDataSameSummaries(cfg, a, b);
      case SummaryBytes => SameDataSameSummaries(cfg, a, b);
      case LineageBytes => SameDataSameLineage(cfg, a, b);
      case _ =>
    }
  }

  lemma {:induction false} SameDataSameQuotas(cfg: Config, a: Rows, b: Rows)
    requires AllFit(a) && AllFit(b) && SameData(a, b)
    ensures DesiredQuotas(cfg, a) == DesiredQuotas(cfg, b)
  {
    SameDataSameIds(a, b);
    forall id | id in QuotaIds(a)
      ensures Used(cfg, a, id.subject, id.resource) == Used(cfg, b, id.subject, id.resource)
    {
      SameDataSameUsed(cfg, a, b, id.subject, id.resource);
    }
  }
}
