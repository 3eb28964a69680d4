/**
 The commit as it runs: dictionaries of rows updated in loops, proved to end with
 the rows that the functions of StoreQuota and StoreCommit define.
 */
module StoreWriter {
  import opened Wrappers
  import opened StoreQuota
  import opened StoreCommit

  method SumOf(ids: set<Id>, w: map<Id, nat>) returns (n: nat)
    requires ids <= w.Keys
    ensures n == Sum(ids, w)
  {
    n := 0;
    var todo := ids;
    while todo != {}
      invariant todo <= ids
      invariant n + Sum(todo, w) == Sum(ids, w)
      decreases todo
    {
      var id :| id in todo;
      SumRemove(todo, w, id);
      n := n + w[id];
      todo := todo - {id};
    }
  }

  /** Every quota so far says what it must. */
  ghost predicate Right(cfg: Config, rows: Rows, q: map<Id, nat>)
    requires AllFit(rows)
  {
    forall k :: k in q ==> k.QuotaId? && q[k] == Used(cfg, rows, k.subject, k.resource)
  }

  /** Every run's bytes. */
  method PutRuns(cfg: Config, rows: Rows) returns (q: map<Id, nat>)
    requires AllFit(rows)
    ensures q.Keys == RunKeys(Owners(rows)) && Right(cfg, rows, q)
  {
    q := map[];
    var w := Weights(cfg, rows);
    var owners := Owners(rows);
    var todo := owners;
    while todo != {}
      invariant todo <= owners
      invariant q.Keys == RunKeys(owners - todo) && Right(cfg, rows, q)
      decreases todo
    {
      var o :| o in todo;
      var used := SumOf(OwnedBy(rows, o), w);
      assert used == Used(cfg, rows, Run(o), PreparationBytes);
      assert RunKeys(owners - (todo - {o})) == RunKeys(owners - todo) + {QuotaId(Run(o), PreparationBytes)};
      q := q[QuotaId(Run(o), PreparationBytes) := used];
      todo := todo - {o};
    }
    assert owners - todo == owners;
  }

  lemma {:induction false} AddReportKeys(rows: Rows, ids: set<Id>, id: Id)
    requires AllFit(rows) && ids <= Preparations(rows) && id in Preparations(rows)
    ensures AllReportKeys(rows, ids + {id}) == AllReportKeys(rows, ids) + ReportKeys(rows[id])
  {
  }

  lemma {:induction false} ReportsAreZero(cfg: Config, rows: Rows, v: Value)
    requires AllFit(rows) && v.Preparation?
    ensures forall k :: k in ReportKeys(v) ==> k.QuotaId? && Used(cfg, rows, k.subject, k.resource) == 0
  {
  }

  /** A report quota of zero for the assignment and the run of every preparation. */
  method PutReports(cfg: Config, rows: Rows) returns (q: map<Id, nat>)
    requires AllFit(rows)
    ensures q.Keys == AllReportKeys(rows, Preparations(rows)) && Right(cfg, rows, q)
  {
    q := map[];
    var sources := Preparations(rows);
    var todo := sources;
    while todo != {}
      invariant todo <= sources
      invariant q.Keys == AllReportKeys(rows, sources - todo) && Right(cfg, rows, q)
      decreases todo
    {
      var id :| id in todo;
      AddReportKeys(rows, sources - todo, id);
      ReportsAreZero(cfg, rows, rows[id]);
      assert sources - (todo - {id}) == sources - todo + {id};
      q := q + map k | k in ReportKeys(rows[id]) :: 0;
      todo := todo - {id};
    }
    assert sources - todo == sources;
  }

  /** The totals of the workspace. */
  method PutWorkspace(cfg: Config, rows: Rows) returns (q: map<Id, nat>)
    requires AllFit(rows)
    ensures q.Keys == WorkspaceKeys && Right(cfg, rows, q)
  {
    var bytes := SumOf(PreparationIds(rows), Weights(cfg, rows));
    var summaries := SummaryRows(cfg, rows);
    var summaryBytes := SumOf(summaries.Keys, summaries);
    var lineage := Lineage(cfg, rows);
    var lineageBytes := SumOf(lineage.Keys, lineage);
    var runs, count := |RunIds(rows)|, |summaries|;
    q := map k | k in WorkspaceKeys :: Total(k.resource, bytes, runs, count, summaryBytes, lineageBytes);
    forall k | k in q
      ensures k.QuotaId? && q[k] == Used(cfg, rows, k.subject, k.resource)
    {
      match k.resource {
        case PreparationBytes =>
        case _ =>
      }
    }
  }

  /** What the workspace's quota of one resource says, from the totals. */
  function Total(r: Resource, bytes: nat, runs: nat, summaries: nat, summaryBytes: nat, lineageBytes: nat): nat {
    match r
    case PreparationBytes => bytes
    case PreparationRuns => runs
    case SummaryCount => summaries
    case SummaryBytes => summaryBytes
    case LineageBytes => lineageBytes
    case _ => 0
  }

  method ComputeQuotas(cfg: Config, rows: Rows) returns (q: map<Id, nat>)
    requires AllFit(rows)
    ensures q == DesiredQuotas(cfg, rows)
  {
    var workspace := PutWorkspace(cfg, rows);
    var runs := PutRuns(cfg, rows);
    var reports := PutReports(cfg, rows);
    q := workspace + runs + reports;
    assert Right(cfg, rows, q) && q.Keys == QuotaIds(rows);
  }

  // ---------- The commit ----------

  method ApplyRows(before: Rows, core: seq<CoreRow>) returns (r: Option<Rows>)
    ensures r == ApplyCore(before, core)
  {
    var after := before;
    for i := 0 to |core|
      invariant ApplyCore(after, core[i..]) == ApplyCore(before, core)
    {
      assert core[i..][0] == core[i] && core[i..][1..] == core[i + 1..];
      if core[i].value.Some? {
        after := after[core[i].id := core[i].value.value];
      } else if core[i].id in after {
        after := after - {core[i].id};
      } else {
        return None;
      }
    }
    assert core[|core|..] == [];
    r := Some(after);
  }

  /** Drop the quota rows that are no longer called for, then put every one that is. */
  method PutQuotas(before: Rows, rows: Rows, quotas: map<Id, nat>) returns (after: Rows)
    requires forall q :: q in quotas ==> q.QuotaId?
    ensures after == WithQuotas(before, rows, quotas)
  {
    after := map id | id in rows && (id.QuotaId? ==> id in quotas) :: rows[id];
    var todo := quotas.Keys;
    while todo != {}
      invariant todo <= quotas.Keys
      invariant forall id: Id :: !id.QuotaId? ==> Lookup(after, id) == Lookup(rows, id)
      invariant forall id: Id :: id.QuotaId? && id in after ==> id in quotas
      invariant forall id :: id in quotas && id !in todo ==> Lookup(after, id) == Some(QuotaRow(before, id, quotas[id]))
      decreases todo
    {
      var id :| id in todo;
      after := after[id := QuotaRow(before, id, quotas[id])];
      todo := todo - {id};
    }
    forall id
      ensures Lookup(after, id) == Lookup(WithQuotas(before, rows, quotas), id)
    {
      WithQuotasRow(before, rows, quotas, id);
    }
    SameLookup(after, WithQuotas(before, rows, quotas));
  }

  lemma {:induction false} SameLookup(a: Rows, b: Rows)
    requires forall id :: Lookup(a, id) == Lookup(b, id)
    ensures a == b
  {
    assert forall id :: id in a ==> Lookup(a, id) == Some(a[id]);
    assert forall id :: id in b ==> Lookup(b, id) == Some(b[id]);
  }

  /** Write the link into every changed row that is still there. */
  method PutLinks(rows: Rows, changed: set<Id>, link: Link) returns (after: Rows)
    ensures after == WithLinks(rows, changed, link)
  {
    after := rows;
    var todo := changed;
    while todo != {}
      invariant todo <= changed
      invariant after == WithLinks(rows, changed - todo, link)
      decreases todo
    {
      var id :| id in todo;
      if id in after {
        after := after[id := Relink(after[id], link)];
      }
      todo := todo - {id};
    }
    assert changed - todo == changed;
  }

  method RunCommit(cfg: Config, before: Rows, kind: string, core: seq<CoreRow>) returns (r: Option<Rows>)
    requires AllFit(before) && CoreOk(core)
    ensures r == Commit(cfg, before, kind, core)
  {
    var applied := ApplyRows(before, core);
    if applied.None? {
      return None;
    }
    CoreFits(before, core);
    var expected := ComputeQuotas(cfg, applied.value);
    QuotaKeys(cfg, applied.value);
    var after := PutQuotas(before, applied.value, expected);
    var manifest := MakeManifest(cfg, before, after, kind);
    var changeDigest := cfg.changeHash(manifest);
    var link := Link(manifest.sequence, changeDigest);
    var linked := PutLinks(after, Changed(before, after), link);
    linked := linked[HeaderId := Header(link)];
    linked := linked[ProofId(manifest.sequence) := Proof(manifest, changeDigest)];
    r := Some(linked);
  }
}
