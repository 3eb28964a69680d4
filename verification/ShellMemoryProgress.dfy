/**
 When a commit must succeed. A memory that refused everything would lose no update
 either; this module shows that an intent commits exactly if every record published
 since its base is the instance's own, behind no barrier, and that a burst of intents
 on different subjects commits to the last one.
 */
module ShellMemoryProgress {
  import opened Wrappers
  import opened ShellMemory
  import opened ShellMemoryRuns

  // ---------- What the proof holds ----------

  /** The link to revision v. */
  function Into(epoch: nat, v: nat): Link {
    Link(epoch, if v > 0 then v - 1 else 0, v)
  }

  predicate Earlier(a: Link, b: Link) {
    a.epoch < b.epoch || (a.epoch == b.epoch && a.from < b.from)
  }

  ghost predicate OwnPublished(f: Facts) {
    forall i, epoch, v :: (i, epoch, v) in f.own ==> f.last.Some? && AtMost(epoch, v, f.last.value.epoch, f.last.value.revision)
  }

  /** Links come in the order of their commits. */
  ghost predicate InOrder(proof: seq<Link>) {
    forall a, b :: 0 <= a < b < |proof| ==> Earlier(proof[a], proof[b])
  }

  predicate NotNewer(f: Facts, l: Link) {
    f.last.Some? && AtMost(l.epoch, l.to, f.last.value.epoch, f.last.value.revision)
  }

  ghost predicate NoneNewer(f: Facts, proof: seq<Link>) {
    forall k :: 0 <= k < |proof| ==> NotNewer(f, proof[k])
  }

  /** The snapshot is no older than any own commit. */
  ghost predicate SeesOwn(f: Facts, i: nat, snapshot: Option<Record>) {
    snapshot.Some? ==> forall epoch, v :: (i, epoch, v) in f.own ==> AtMost(epoch, v, snapshot.value.epoch, snapshot.value.revision)
  }

  predicate BehindFence(f: Facts, i: nat, epoch: nat, v: nat) {
    i in f.fences && AtMost(epoch, v, f.fences[i].epoch, f.fences[i].revision)
  }

  /** Own commits since the base of a pending intent and since the last barrier are in the proof. */
  ghost predicate Remembers(f: Facts, i: nat, x: Intent, proof: seq<Link>) {
    forall v: nat :: v > x.base && (i, x.epoch, v) in f.own && !BehindFence(f, i, x.epoch, v) ==> Into(x.epoch, v) in proof
  }

  ghost predicate ChainInv(f: Facts, i: nat, inst: Instance) {
    && InOrder(inst.proof) && NoneNewer(f, inst.proof) && SeesOwn(f, i, inst.snapshot)
    && forall x :: x in inst.pending ==> Remembers(f, i, x, inst.proof)
  }

  ghost predicate ProgressInv(s: System) {
    && Inv(s) && OwnPublished(s.shared.log.facts)
    && forall i :: 0 <= i < |s.instances| ==> ChainInv(s.shared.log.facts, i, s.instances[i])
  }

  // ---------- What a step does to publications ----------

  ghost predicate LastGrows(f: Facts, g: Facts) {
    f.last.Some? ==> g.last.Some? && AtMost(f.last.value.epoch, f.last.value.revision, g.last.value.epoch, g.last.value.revision)
  }

  /** No commit: own commits and fences are as before. */
  ghost predicate Still(f: Facts, g: Facts) {
    LastGrows(f, g) && g.own == f.own && g.fences == f.fences
  }

  /** One commit of instance i. */
  ghost predicate CommitsOne(f: Facts, g: Facts, i: nat, next: Record, barrier: bool) {
    && LastGrows(f, g) && g.last == Some(next) && g.own == f.own + {(i, next.epoch, next.revision)}
    && (if barrier then i in g.fences && g.fences[i].epoch == next.epoch && g.fences[i].revision == next.revision
                        && (forall j :: j != i ==> (j in g.fences <==> j in f.fences) && (j in f.fences ==> g.fences[j] == f.fences[j]))
        else g.fences == f.fences)
  }

  lemma {:induction false} ResolvingIsStill(sh: Shared, i: nat, xs: seq<Intent>)
    ensures var g := ResolveAll(sh, i, xs).log.facts; g.last == sh.log.facts.last && g.own == sh.log.facts.own && g.fences == sh.log.facts.fences
    ensures ResolveAll(sh, i, xs).file == sh.file
  {
    if xs != [] {
      ResolvingIsStill(sh, i, xs[..|xs| - 1]);
    }
  }

  lemma {:induction false} FoundKeepsOwn(p: Pair, o: Oracle)
    ensures var g := Found(p, o).shared.log.facts; g.own == p.shared.log.facts.own && g.fences == p.shared.log.facts.fences
  {
  }

  lemma {:induction false} FoundIsStill(p: Pair, i: nat, o: Oracle)
    requires PairInv(p, i)
    ensures Still(p.shared.log.facts, Found(p, o).shared.log.facts)
  {
    FoundKeepsOwn(p, o);
    FoundKeeps(p, i, o);
    assert Grows(p.shared.log.facts, Found(p, o).shared.log.facts, i);
  }

  lemma {:induction false} ReadIsStill(p: Pair, i: nat, o: Oracle)
    requires PairInv(p, i)
    ensures Still(p.shared.log.facts, ReadRecord(p, o).0.shared.log.facts)
  {
    FoundIsStill(p, i, o);
  }

  lemma {:induction false} PushIsStill(p: Pair, i: nat, a: Action)
    requires a.Enqueue? && p.inst.snapshot.Some?
    ensures Still(p.shared.log.facts, Push(p, i, a).shared.log.facts) && Push(p, i, a).shared.file == p.shared.file
  {
    ResolvingIsStill(p.shared, i, Select(p.inst.pending, a.subject, true));
  }

  lemma {:induction false} EnqueueIsStill(p: Pair, i: nat, a: Action, o: Oracle)
    requires PairInv(p, i) && a.Enqueue?
    ensures Still(p.shared.log.facts, EnqueueStep(p, i, a, o).shared.log.facts)
  {
    ReadIsStill(p, i, o);
    ReadKeeps(p, i, o);
    var p1 := ReadRecord(p, o).0;
    if p.inst.snapshot.Some? && !p.inst.needsRefresh {
      PushIsStill(p, i, a);
    } else if p1.inst.snapshot.Some? {
      PushIsStill(p1, i, a);
    }
  }

  lemma {:induction false} RebuildIsStill(p: Pair, i: nat, o: Oracle)
    requires PairInv(p, i)
    ensures Still(p.shared.log.facts, RebuildStep(p, i, o).shared.log.facts)
  {
    ResolvingIsStill(p.shared, i, p.inst.pending);
    DropAll(p.shared, i, p.inst.pending);
    var p1 := Pair(ResolveAll(p.shared, i, p.inst.pending), p.inst.(pending := [], proof := []));
    FoundIsStill(p1, i, o);
  }

  lemma {:induction false} FailedIsStill(sh: Shared, attempted: Record, outcome: WriteOutcome)
    requires SharedInv(sh) && attempted.epoch < sh.epochs
    requires sh.log.facts.last.Some? ==> Precedes(sh.log.facts.last.value, attempted)
    ensures Still(sh.log.facts, Failed(sh, attempted, outcome).log.facts)
  {
    FailedKeeps(sh, attempted, outcome);
    assert Grows(sh.log.facts, Failed(sh, attempted, outcome).log.facts, 0);
  }

  lemma {:induction false} HeadPublishes(p: Pair, i: nat, o: Oracle)
    requires PairInv(p, i) && p.inst.pending != []
    ensures var x := p.inst.pending[0];
            var (p1, ok) := Commit(p, i, x, o);
            var g := p1.shared.log.facts;
            if ok then NextRecord(p, x, o).Some? && CommitsOne(p.shared.log.facts, g, i, NextRecord(p, x, o).value, x.barrier)
            else Still(p.shared.log.facts, g)
  {
    var x := p.inst.pending[0];
    if NextRecord(p, x, o).Some? {
      assert GoodIntent(p.shared.log.facts, i, x);
      CommitIsGood(p, i, x, o);
      FailedIsStill(p.shared, NextRecord(p, x, o).value, o.write);
    }
  }

  /** What a tick publishes, and the instance it leaves. */
  lemma {:induction false} TickPublishes(p: Pair, i: nat, o: Oracle)
    requires PairInv(p, i) && p.inst.pending != []
    ensures var x := p.inst.pending[0];
            var g := TickStep(p, i, o).shared.log.facts;
            if TickCommits(p, i, o) then NextRecord(p, x, o).Some? && CommitsOne(p.shared.log.facts, g, i, NextRecord(p, x, o).value, x.barrier)
            else Still(p.shared.log.facts, g)
  {
    var x, rest := p.inst.pending[0], p.inst.pending[1..];
    HeadPublishes(p, i, o);
    var (p1, ok) := Commit(p, i, x, o);
    var q := p.(inst := p.inst.(scheduled := false, pending := rest));
    assert NextRecord(q, x, o) == NextRecord(p, x, o);
    assert Commit(q, i, x, o).0.shared == p1.shared;
    ResolvingIsStill(Note(p1.shared, Resolved(i, x.id, ok)), i, rest);
  }

  // ---------- Every step keeps it ----------

  lemma {:induction false} StillKeepsOwn(f: Facts, g: Facts)
    requires OwnPublished(f) && Still(f, g)
    ensures OwnPublished(g)
  {
  }

  lemma {:induction false} CommitKeepsOwn(f: Facts, g: Facts, i: nat, next: Record, barrier: bool)
    requires OwnPublished(f) && CommitsOne(f, g, i, next, barrier)
    ensures OwnPublished(g)
  {
  }

  lemma {:induction false} NewerLast(f: Facts, g: Facts, proof: seq<Link>)
    requires NoneNewer(f, proof) && LastGrows(f, g)
    ensures NoneNewer(g, proof)
  {
    forall k | 0 <= k < |proof| ensures NotNewer(g, proof[k]) {
      assert NotNewer(f, proof[k]);
    }
  }

  lemma {:induction false} StillKeepsChain(f: Facts, g: Facts, i: nat, inst: Instance)
    requires ChainInv(f, i, inst) && Still(f, g)
    ensures ChainInv(g, i, inst)
  {
    NewerLast(f, g, inst.proof);
    forall x | x in inst.pending ensures Remembers(g, i, x, inst.proof) {
      assert Remembers(f, i, x, inst.proof);
    }
  }

  lemma {:induction false} CommitKeepsOthers(f: Facts, g: Facts, i: nat, next: Record, barrier: bool, j: nat, inst: Instance)
    requires ChainInv(f, j, inst) && CommitsOne(f, g, i, next, barrier) && j != i
    ensures ChainInv(g, j, inst)
  {
    NewerLast(f, g, inst.proof);
    forall x | x in inst.pending ensures Remembers(g, j, x, inst.proof) {
      assert Remembers(f, j, x, inst.proof);
    }
  }

  /** An instance with nothing pending and an empty proof has only its snapshot to answer for. */
  lemma {:induction false} EmptyKeepsChain(f: Facts, i: nat, inst: Instance)
    requires inst.pending == [] && inst.proof == [] && SeesOwn(f, i, inst.snapshot)
    ensures ChainInv(f, i, inst)
  {
  }

  lemma {:induction false} SnapshotOfLast(f: Facts, i: nat)
    requires OwnPublished(f)
    ensures SeesOwn(f, i, f.last)
  {
  }

  lemma {:induction false} NewSnapshotKeepsChain(f: Facts, i: nat, inst: Instance, snapshot: Option<Record>, needsRefresh: bool)
    requires ChainInv(f, i, inst) && SeesOwn(f, i, snapshot)
    ensures ChainInv(f, i, inst.(snapshot := snapshot, needsRefresh := needsRefresh))
  {
    forall x | x in inst.pending ensures Remembers(f, i, x, inst.proof) {}
  }

  /** Founding leaves the old snapshot or the record founded, which is the last one then. */
  lemma {:induction false} FoundSnapshot(p: Pair, i: nat, o: Oracle)
    requires PairInv(p, i) && OwnPublished(p.shared.log.facts) && SeesOwn(p.shared.log.facts, i, p.inst.snapshot)
    ensures var r := Found(p, o); OwnPublished(r.shared.log.facts) && SeesOwn(r.shared.log.facts, i, r.inst.snapshot)
    ensures var r := Found(p, o); r.inst == p.inst.(snapshot := r.inst.snapshot)
  {
    var r := Found(p, o);
    FoundIsStill(p, i, o);
    StillKeepsOwn(p.shared.log.facts, r.shared.log.facts);
    if o.write.Wrote? {
      SnapshotOfLast(r.shared.log.facts, i);
      assert r.inst.snapshot == r.shared.log.facts.last;
    }
  }

  lemma {:induction false} ReadKeepsChain(p: Pair, i: nat, o: Oracle)
    requires PairInv(p, i) && OwnPublished(p.shared.log.facts) && ChainInv(p.shared.log.facts, i, p.inst)
    ensures var r := ReadRecord(p, o).0; OwnPublished(r.shared.log.facts) && ChainInv(r.shared.log.facts, i, r.inst)
  {
    var r := ReadRecord(p, o).0;
    var g := r.shared.log.facts;
    ReadIsStill(p, i, o);
    StillKeepsOwn(p.shared.log.facts, g);
    StillKeepsChain(p.shared.log.facts, g, i, p.inst);
    FoundSnapshot(p, i, o);
    SnapshotOfLast(g, i);
    NewSnapshotKeepsChain(g, i, p.inst, r.inst.snapshot, r.inst.needsRefresh);
    assert r.inst == p.inst.(snapshot := r.inst.snapshot, needsRefresh := r.inst.needsRefresh);
  }

  lemma {:induction false} PushKeepsChain(p: Pair, i: nat, a: Action)
    requires a.Enqueue? && p.inst.snapshot.Some? && ChainInv(p.shared.log.facts, i, p.inst)
    ensures ChainInv(Push(p, i, a).shared.log.facts, i, Push(p, i, a).inst)
  {
    var r := Push(p, i, a);
    var g := r.shared.log.facts;
    PushIsStill(p, i, a);
    StillKeepsChain(p.shared.log.facts, g, i, p.inst);
    forall x | x in r.inst.pending ensures Remembers(g, i, x, r.inst.proof) {
      if x in Select(p.inst.pending, a.subject, false) {
        assert x in p.inst.pending;
      }
    }
  }

  lemma {:induction false} EnqueueKeepsChain(p: Pair, i: nat, a: Action, o: Oracle)
    requires PairInv(p, i) && OwnPublished(p.shared.log.facts) && ChainInv(p.shared.log.facts, i, p.inst) && a.Enqueue?
    ensures var r := EnqueueStep(p, i, a, o); ChainInv(r.shared.log.facts, i, r.inst)
  {
    ReadKeepsChain(p, i, o);
    ReadKeeps(p, i, o);
    var (p1, found) := ReadRecord(p, o);
    if p.inst.snapshot.Some? && !p.inst.needsRefresh {
      PushKeepsChain(p, i, a);
    } else if found {
      PushKeepsChain(p1, i, a);
    }
  }

  lemma {:induction false} RebuildKeepsChain(p: Pair, i: nat, o: Oracle)
    requires PairInv(p, i) && OwnPublished(p.shared.log.facts) && ChainInv(p.shared.log.facts, i, p.inst)
    ensures var r := RebuildStep(p, i, o); ChainInv(r.shared.log.facts, i, r.inst)
  {
    ResolvingIsStill(p.shared, i, p.inst.pending);
    DropAll(p.shared, i, p.inst.pending);
    var p1 := Pair(ResolveAll(p.shared, i, p.inst.pending), p.inst.(pending := [], proof := []));
    EmptyKeepsChain(p1.shared.log.facts, i, p1.inst);
    FoundSnapshot(p1, i, o);
    var r := RebuildStep(p, i, o);
    EmptyKeepsChain(r.shared.log.facts, i, r.inst);
  }

  /** A commit that is no barrier adds its link at the end. */
  lemma {:induction false} LinkKeepsOrder(f: Facts, g: Facts, i: nat, before: Record, next: Record, proof: seq<Link>)
    requires ProofInv(f, i, proof) && InOrder(proof) && NoneNewer(f, proof) && f.last == Some(before)
    requires next.epoch == before.epoch && next.revision == before.revision + 1 && g.last == Some(next)
    ensures var longer := proof + [Link(before.epoch, before.revision, next.revision)]; InOrder(longer) && NoneNewer(g, longer)
  {
    var longer := proof + [Link(before.epoch, before.revision, next.revision)];
    forall k | 0 <= k < |proof| ensures Earlier(proof[k], longer[|proof|]) {
      assert GoodLink(f, i, proof[k]);
    }
  }

  lemma {:induction false} LinkRemembers(f: Facts, g: Facts, i: nat, before: Record, next: Record, x: Intent, proof: seq<Link>)
    requires Remembers(f, i, x, proof) && CommitsOne(f, g, i, next, false)
    requires next.epoch == before.epoch && next.revision == before.revision + 1
    ensures Remembers(g, i, x, proof + [Link(before.epoch, before.revision, next.revision)])
  {
  }

  lemma {:induction false} BarrierForgets(g: Facts, i: nat, next: Record, x: Intent)
    requires OwnPublished(g) && g.last == Some(next)
    requires i in g.fences && g.fences[i].epoch == next.epoch && g.fences[i].revision == next.revision
    ensures Remembers(g, i, x, [])
  {
  }

  lemma {:induction false} CommittedKeepsChain(p: Pair, i: nat, o: Oracle)
    requires PairInv(p, i) && OwnPublished(p.shared.log.facts) && ChainInv(p.shared.log.facts, i, p.inst)
    requires p.inst.scheduled && p.inst.pending != [] && TickCommits(p, i, o)
    ensures var r := TickStep(p, i, o); ChainInv(r.shared.log.facts, i, r.inst)
  {
    var x, rest := p.inst.pending[0], p.inst.pending[1..];
    var f := p.shared.log.facts;
    var r := TickStep(p, i, o);
    var g := r.shared.log.facts;
    var before, next := p.shared.file.record, NextRecord(p, x, o).value;
    TickPublishes(p, i, o);
    CommitKeepsOwn(f, g, i, next, x.barrier);
    SnapshotOfLast(g, i);
    assert r.inst.snapshot == Some(next) && r.inst.pending == rest;
    if x.barrier || rest == [] {
      forall y | y in rest ensures Remembers(g, i, y, []) { BarrierForgets(g, i, next, y); }
    } else {
      LinkKeepsOrder(f, g, i, before, next, p.inst.proof);
      forall y | y in rest ensures Remembers(g, i, y, r.inst.proof) {
        assert y in p.inst.pending;
        LinkRemembers(f, g, i, before, next, y, p.inst.proof);
      }
    }
  }

  lemma {:induction false} TickKeepsChain(p: Pair, i: nat, o: Oracle)
    requires PairInv(p, i) && OwnPublished(p.shared.log.facts) && ChainInv(p.shared.log.facts, i, p.inst)
    ensures var r := TickStep(p, i, o); ChainInv(r.shared.log.facts, i, r.inst)
  {
    var r := TickStep(p, i, o);
    if p.inst.scheduled && p.inst.pending != [] {
      if TickCommits(p, i, o) {
        CommittedKeepsChain(p, i, o);
      } else {
        TickPublishes(p, i, o);
        TickFate(p, i, o);
        assert r.inst.snapshot == p.inst.snapshot;
        EmptyKeepsChain(r.shared.log.facts, i, r.inst);
      }
    } else if p.inst.scheduled {
      EmptyKeepsChain(r.shared.log.facts, i, r.inst);
    }
  }

  lemma {:induction false} OneKeepsChain(p: Pair, i: nat, a: Action, o: Oracle)
    requires PairInv(p, i) && OwnPublished(p.shared.log.facts) && ChainInv(p.shared.log.facts, i, p.inst)
    ensures var r := StepOne(p, i, a, o); ChainInv(r.shared.log.facts, i, r.inst)
  {
    match a
    case Read => ReadKeepsChain(p, i, o);
    case Enqueue(_, _, _) => EnqueueKeepsChain(p, i, a, o);
    case Tick => TickKeepsChain(p, i, o);
    case Rebuild => RebuildKeepsChain(p, i, o);
  }

  /** A step commits once or not at all. */
  ghost predicate Publishing(f: Facts, g: Facts, i: nat) {
    Still(f, g) || exists next, barrier :: CommitsOne(f, g, i, next, barrier)
  }

  lemma {:induction false} OnePublishes(p: Pair, i: nat, a: Action, o: Oracle)
    requires PairInv(p, i)
    ensures Publishing(p.shared.log.facts, StepOne(p, i, a, o).shared.log.facts, i)
  {
    match a
    case Read => ReadIsStill(p, i, o);
    case Enqueue(_, _, _) => EnqueueIsStill(p, i, a, o);
    case Tick => if p.inst.scheduled && p.inst.pending != [] { TickPublishes(p, i, o); }
    case Rebuild => RebuildIsStill(p, i, o);
  }

  lemma {:induction false} OthersKeepChain(f: Facts, g: Facts, i: nat, j: nat, inst: Instance)
    requires ChainInv(f, j, inst) && Publishing(f, g, i) && j != i
    ensures ChainInv(g, j, inst)
  {
    if Still(f, g) {
      StillKeepsChain(f, g, j, inst);
    } else {
      var next, barrier :| CommitsOne(f, g, i, next, barrier);
      CommitKeepsOthers(f, g, i, next, barrier, j, inst);
    }
  }

  lemma {:induction false} StepKeepsProgress(s: System, i: nat, a: Action, o: Oracle)
    requires ProgressInv(s)
    ensures ProgressInv(Step(s, i, a, o))
  {
    StepKeeps(s, i, a, o);
    if i < |s.instances| {
      var p := Pair(s.shared, s.instances[i]);
      var s' := Step(s, i, a, o);
      var f, g := s.shared.log.facts, s'.shared.log.facts;
      OneKeepsChain(p, i, a, o);
      OnePublishes(p, i, a, o);
      if Still(f, g) {
        StillKeepsOwn(f, g);
      } else {
        var next, barrier :| CommitsOne(f, g, i, next, barrier);
        CommitKeepsOwn(f, g, i, next, barrier);
      }
      forall j | 0 <= j < |s'.instances| ensures ChainInv(g, j, s'.instances[j]) {
        if j != i { OthersKeepChain(f, g, i, j, s.instances[j]); }
      }
    }
  }

  lemma {:induction false} InitProgress(file: Content, instances: nat)
    ensures ProgressInv(Init(file, instances))
  {
    InitInv(file, instances);
  }

  lemma {:induction false} RunProgress(file: Content, instances: nat, es: seq<Event>)
    ensures ProgressInv(Run(Init(file, instances), es))
  {
    if es == [] {
      InitProgress(file, instances);
    } else {
      var n := |es| - 1;
      RunProgress(file, instances, es[..n]);
      StepKeepsProgress(Run(Init(file, instances), es[..n]), es[n].instance, es[n].action, es[n].oracle);
    }
  }

  // ---------- The expected revision ----------

  /** Every link from base to target is there, and none of the epoch leads further. */
  ghost predicate Leads(proof: seq<Link>, epoch: nat, base: nat, target: nat) {
    && base <= target
    && (forall v: nat :: base < v <= target ==> Into(epoch, v) in proof)
    && (forall l :: l in proof && l.epoch == epoch ==> l.to == l.from + 1 && l.to <= target)
  }

  /** Then following the links from the base leads to the target. */
  lemma {:induction false} ExpectedReaches(proof: seq<Link>, epoch: nat, base: nat, target: nat)
    requires InOrder(proof) && Leads(proof, epoch, base, target)
    ensures Expected(proof, epoch, base) == target
  {
    if proof == [] {
      assert base < target ==> Into(epoch, target) in proof;
    } else {
      var n := |proof| - 1;
      var front, l := proof[..n], proof[n];
      assert proof == front + [l];
      if l.epoch != epoch {
        assert Leads(front, epoch, base, target);
        ExpectedReaches(front, epoch, base, target);
      } else if l.to <= base {
        LastIsHighest(proof, epoch, base, target);
        assert Leads(front, epoch, base, base);
        ExpectedReaches(front, epoch, base, base);
      } else {
        LastIsHighest(proof, epoch, base, target);
        assert l == Into(epoch, target);
        ShorterLeads(proof, epoch, base, target);
        ExpectedReaches(front, epoch, base, target - 1);
      }
    }
  }

  /** The last link of the epoch is the one to the target, if there is a way to go. */
  lemma {:induction false} LastIsHighest(proof: seq<Link>, epoch: nat, base: nat, target: nat)
    requires InOrder(proof) && Leads(proof, epoch, base, target) && proof != [] && proof[|proof| - 1].epoch == epoch
    ensures base < target ==> proof[|proof| - 1].to == target
    ensures proof[|proof| - 1].to <= base ==> base == target
    ensures forall k :: 0 <= k < |proof| - 1 && proof[k].epoch == epoch ==> proof[k].to < proof[|proof| - 1].to
  {
    var l := proof[|proof| - 1];
    assert l in proof;
    forall k | 0 <= k < |proof| - 1 && proof[k].epoch == epoch
      ensures proof[k].to < l.to
    {
      assert proof[k] in proof && Earlier(proof[k], l);
    }
    if base < target {
      var k :| 0 <= k < |proof| && proof[k] == Into(epoch, target);
    }
  }

  lemma {:induction false} ShorterLeads(proof: seq<Link>, epoch: nat, base: nat, target: nat)
    requires InOrder(proof) && Leads(proof, epoch, base, target) && proof != []
    requires proof[|proof| - 1] == Into(epoch, target) && base < target
    ensures Leads(proof[..|proof| - 1], epoch, base, target - 1)
  {
    var n := |proof| - 1;
    var front := proof[..n];
    assert proof == front + [proof[n]];
    LastIsHighest(proof, epoch, base, target);
    forall l | l in front && l.epoch == epoch
      ensures l.to == l.from + 1 && l.to <= target - 1
    {
      var k :| 0 <= k < n && front[k] == l;
      assert proof[k] == l && l in proof;
    }
  }

  // ---------- Exactly when a tick commits ----------

  /** Every revision since the base is an own commit, and no barrier stands behind the base. */
  ghost predicate OwnGap(f: Facts, i: nat, x: Intent, revision: nat) {
    && x.base <= revision
    && (forall v: nat :: x.base < v <= revision ==> (i, x.epoch, v) in f.own)
    && (i in f.fences ==> AtMost(f.fences[i].epoch, f.fences[i].revision, x.epoch, x.base))
  }

  /** The environment lets it: lock, validity and write. */
  predicate Permits(o: Oracle) {
    o.valid && o.locked && o.stillValid && o.write.Wrote?
  }

  lemma {:induction false} GapIsLed(p: Pair, i: nat, x: Intent)
    requires PairInv(p, i) && ChainInv(p.shared.log.facts, i, p.inst) && x in p.inst.pending
    requires p.shared.file.Stored? && p.shared.file.record.epoch == x.epoch
    requires OwnGap(p.shared.log.facts, i, x, p.shared.file.record.revision)
    ensures Leads(p.inst.proof, x.epoch, x.base, p.shared.file.record.revision)
  {
    var f := p.shared.log.facts;
    var r := p.shared.file.record;
    forall v: nat | x.base < v <= r.revision ensures Into(x.epoch, v) in p.inst.proof {
      assert Remembers(f, i, x, p.inst.proof) && (i, x.epoch, v) in f.own;
    }
    forall l | l in p.inst.proof && l.epoch == x.epoch ensures l.to == l.from + 1 && l.to <= r.revision {
      var k :| 0 <= k < |p.inst.proof| && p.inst.proof[k] == l;
      assert GoodLink(f, i, p.inst.proof[k]);
    }
  }

  lemma {:induction false} ExpectedIffGap(p: Pair, i: nat, x: Intent)
    requires PairInv(p, i) && ChainInv(p.shared.log.facts, i, p.inst) && x in p.inst.pending
    requires p.shared.file.Stored? && p.shared.file.record.epoch == x.epoch
    ensures p.shared.file.record.revision == Expected(p.inst.proof, x.epoch, x.base)
            <==> OwnGap(p.shared.log.facts, i, x, p.shared.file.record.revision)
  {
    var f := p.shared.log.facts;
    var r := p.shared.file.record;
    if OwnGap(f, i, x, r.revision) {
      GapIsLed(p, i, x);
      ExpectedReaches(p.inst.proof, x.epoch, x.base, r.revision);
    }
    if r.revision == Expected(p.inst.proof, x.epoch, x.base) {
      ExpectedIsOwn(f, i, p.inst.proof, x.epoch, x.base);
      if i in f.fences && !AtMost(f.fences[i].epoch, f.fences[i].revision, x.epoch, x.base) {
        ExpectedIsStuck(f, i, p.inst.proof, x.epoch, x.base);
      }
    }
  }

  /** What the head of a queue needs to commit, apart from the environment. */
  ghost predicate Ready(sh: Shared, i: nat, x: Intent) {
    && sh.file.Stored? && sh.file.record.epoch == x.epoch && sh.file.record.revision != MAX_SAFE_INTEGER
    && x.update(sh.file.record.payload, sh.file.record.revision + 1).Some?
    && OwnGap(sh.log.facts, i, x, sh.file.record.revision)
  }

  lemma {:induction false} TickCommitsIff(p: Pair, i: nat, o: Oracle)
    requires PairInv(p, i) && ChainInv(p.shared.log.facts, i, p.inst) && p.inst.pending != []
    ensures TickCommits(p, i, o) <==> Permits(o) && Ready(p.shared, i, p.inst.pending[0])
  {
    var x := p.inst.pending[0];
    var q := p.(inst := p.inst.(scheduled := false, pending := p.inst.pending[1..]));
    assert NextRecord(q, x, o) == NextRecord(p, x, o);
    if p.shared.file.Stored? && p.shared.file.record.epoch == x.epoch {
      ExpectedIffGap(p, i, x);
    }
  }

  // ---------- The same about the log ----------

  ghost predicate BarrierBy(e: Effect, i: nat) {
    e.Committed? && e.instance == i && e.intent.barrier
  }

  /** Instance i committed that revision, and not as a barrier. */
  ghost predicate WrotePlainly(effects: seq<Effect>, i: nat, epoch: nat, revision: nat) {
    exists j :: 0 <= j < |effects| && CommittedBy(effects[j], i, epoch, revision) && !effects[j].intent.barrier
  }

  /** Everything published since the intent's base is an own commit and none of it a barrier. */
  ghost predicate OwnSinceBase(effects: seq<Effect>, i: nat, x: Intent, revision: nat) {
    x.base <= revision && forall v: nat :: x.base < v <= revision ==> WrotePlainly(effects, i, x.epoch, v)
  }

  lemma {:induction false} CommitsAreOwn(effects: seq<Effect>, j: nat)
    requires j < |effects| && effects[j].Committed?
    ensures (effects[j].instance, effects[j].after.epoch, effects[j].after.revision) in FactsOf(effects).own
  {
    var n := |effects| - 1;
    if j < n {
      CommitsAreOwn(effects[..n], j);
    }
  }

  lemma {:induction false} FenceMeans(effects: seq<Effect>, i: nat)
    requires i in FactsOf(effects).fences
    ensures exists j :: 0 <= j < |effects| && BarrierBy(effects[j], i)
                        && effects[j].after.epoch == FactsOf(effects).fences[i].epoch
                        && effects[j].after.revision == FactsOf(effects).fences[i].revision
  {
    var n := |effects| - 1;
    if BarrierBy(effects[n], i) {
      assert effects[n].after.epoch == FactsOf(effects).fences[i].epoch;
    } else {
      FenceMeans(effects[..n], i);
      var j :| 0 <= j < n && BarrierBy(effects[..n][j], i)
        && effects[..n][j].after.epoch == FactsOf(effects[..n]).fences[i].epoch
        && effects[..n][j].after.revision == FactsOf(effects[..n]).fences[i].revision;
      assert effects[j] == effects[..n][j];
    }
  }

  lemma {:induction false} FenceReaches(effects: seq<Effect>, i: nat, j: nat)
    requires FactsOf(effects).good && j < |effects| && BarrierBy(effects[j], i)
    ensures i in FactsOf(effects).fences
    ensures AtMost(effects[j].after.epoch, effects[j].after.revision, FactsOf(effects).fences[i].epoch, FactsOf(effects).fences[i].revision)
  {
    var n := |effects| - 1;
    PrefixGood(effects, n);
    if j < n {
      FenceReaches(effects[..n], i, j);
      if BarrierBy(effects[n], i) {
        PublicationsIncrease(effects, j);
      }
    }
  }

  /** A revision is on the disk once, so it was put there as a barrier or not. */
  lemma {:induction false} OneCommitPerRevision(effects: seq<Effect>, j: nat, k: nat)
    requires FactsOf(effects).good && j < |effects| && k < |effects| && effects[j].Committed? && effects[k].Committed?
    requires effects[j].after.epoch == effects[k].after.epoch && effects[j].after.revision == effects[k].after.revision
    ensures j == k
  {
    if j < k { PublicationsIncrease(effects, j); }
    if k < j { PublicationsIncrease(effects, k); }
  }

  lemma {:induction false} GapIsPlain(effects: seq<Effect>, i: nat, x: Intent, revision: nat, v: nat)
    requires FactsOf(effects).good && OwnGap(FactsOf(effects), i, x, revision) && x.base < v <= revision
    ensures WrotePlainly(effects, i, x.epoch, v)
  {
    OwnMeans(effects, i, x.epoch, v);
    var j :| 0 <= j < |effects| && CommittedBy(effects[j], i, x.epoch, v);
    if effects[j].intent.barrier {
      FenceReaches(effects, i, j);
    }
  }

  lemma {:induction false} PlainIsGap(effects: seq<Effect>, i: nat, x: Intent, r: Record)
    requires FactsOf(effects).good && OwnSinceBase(effects, i, x, r.revision) && r.epoch == x.epoch
    requires var f := FactsOf(effects); i in f.fences ==> AtMost(f.fences[i].epoch, f.fences[i].revision, r.epoch, r.revision)
    ensures OwnGap(FactsOf(effects), i, x, r.revision)
  {
    var f := FactsOf(effects);
    forall v: nat | x.base < v <= r.revision ensures (i, x.epoch, v) in f.own {
      assert WrotePlainly(effects, i, x.epoch, v);
      var j :| 0 <= j < |effects| && CommittedBy(effects[j], i, x.epoch, v) && !effects[j].intent.barrier;
      CommitsAreOwn(effects, j);
    }
    if i in f.fences {
      FenceIsBehind(effects, i, x, r);
    }
  }

  lemma {:induction false} FenceIsBehind(effects: seq<Effect>, i: nat, x: Intent, r: Record)
    requires FactsOf(effects).good && OwnSinceBase(effects, i, x, r.revision) && r.epoch == x.epoch && i in FactsOf(effects).fences
    requires var fence := FactsOf(effects).fences[i]; AtMost(fence.epoch, fence.revision, r.epoch, r.revision)
    ensures var fence := FactsOf(effects).fences[i]; AtMost(fence.epoch, fence.revision, x.epoch, x.base)
  {
    var fence := FactsOf(effects).fences[i];
    FenceMeans(effects, i);
    var k :| 0 <= k < |effects| && BarrierBy(effects[k], i) && effects[k].after.epoch == fence.epoch && effects[k].after.revision == fence.revision;
    if !AtMost(fence.epoch, fence.revision, x.epoch, x.base) {
      assert WrotePlainly(effects, i, x.epoch, fence.revision);
      var j :| 0 <= j < |effects| && CommittedBy(effects[j], i, x.epoch, fence.revision) && !effects[j].intent.barrier;
      OneCommitPerRevision(effects, j, k);
    }
  }

  /**
   In every run of any number of instances: the head of a queue commits if and only if the
   environment lets it, the record on disk is of its epoch and below the limit, its update
   accepts that record, and everything published since its base is an own commit of its
   instance, none of it a barrier.
   */
  lemma {:induction false} CommitsExactly(file: Content, instances: nat, es: seq<Event>, i: nat, o: Oracle)
    requires i < |Run(Init(file, instances), es).instances| && Run(Init(file, instances), es).instances[i].pending != []
    ensures var s := Run(Init(file, instances), es);
            var x := s.instances[i].pending[0];
            TickCommits(Pair(s.shared, s.instances[i]), i, o) <==>
              && o.valid && o.locked && o.stillValid && o.write.Wrote?
              && s.shared.file.Stored? && s.shared.file.record.epoch == x.epoch
              && s.shared.file.record.revision != MAX_SAFE_INTEGER
              && x.update(s.shared.file.record.payload, s.shared.file.record.revision + 1).Some?
              && OwnSinceBase(EffectsOf(file, instances, es), i, x, s.shared.file.record.revision)
  {
    var s := Run(Init(file, instances), es);
    RunProgress(file, instances, es);
    var p := Pair(s.shared, s.instances[i]);
    var x := s.instances[i].pending[0];
    var effects := EffectsOf(file, instances, es);
    TickCommitsIff(p, i, o);
    if s.shared.file.Stored? && s.shared.file.record.epoch == x.epoch {
      var r := s.shared.file.record;
      if OwnGap(s.shared.log.facts, i, x, r.revision) {
        forall v: nat | x.base < v <= r.revision ensures WrotePlainly(effects, i, x.epoch, v) {
          GapIsPlain(effects, i, x, r.revision, v);
        }
      }
      if OwnSinceBase(effects, i, x, r.revision) {
        PlainIsGap(effects, i, x, r);
      }
    }
  }

  // ---------- Bursts ----------

  /** Intents of one base that accept whatever is there. */
  ghost predicate Eager(xs: seq<Intent>, epoch: nat, base: nat) {
    forall x :: x in xs ==> !x.barrier && x.epoch == epoch && x.base == base && forall payload, v :: x.update(payload, v).Some?
  }

  ghost predicate CommittedIn(effects: seq<Effect>, x: Intent) {
    exists k :: 0 <= k < |effects| && effects[k].Committed? && effects[k].intent == x
  }

  ghost predicate AllPermit(os: seq<Oracle>) {
    forall k :: 0 <= k < |os| ==> Permits(os[k])
  }

  /** The shared state after the head has committed. */
  ghost function Committing(p: Pair, i: nat, next: Record): Shared
    requires p.inst.pending != [] && p.shared.file.Stored?
  {
    var x := p.inst.pending[0];
    Note(Note(p.shared.(file := Stored(next)), Committed(i, x, p.shared.file.record, next)), Resolved(i, x.id, true))
  }

  lemma {:induction false} TickCommitting(p: Pair, i: nat, o: Oracle)
    requires p.inst.scheduled && p.inst.pending != [] && TickCommits(p, i, o)
    ensures p.shared.file.Stored? && NextRecord(p, p.inst.pending[0], o).Some?
    ensures TickStep(p, i, o).shared == Committing(p, i, NextRecord(p, p.inst.pending[0], o).value)
    ensures TickStep(p, i, o).inst.pending == p.inst.pending[1..]
  {
    var q := p.(inst := p.inst.(scheduled := false, pending := p.inst.pending[1..]));
    assert NextRecord(q, p.inst.pending[0], o) == NextRecord(p, p.inst.pending[0], o);
  }

  lemma {:induction false} CommittingLogs(p: Pair, i: nat, next: Record)
    requires p.inst.pending != [] && p.shared.file.Stored?
    ensures var sh := Committing(p, i, next);
            && CommittedIn(sh.log.effects, p.inst.pending[0]) && p.shared.log.effects <= sh.log.effects
            && sh.log.facts.own == p.shared.log.facts.own + {(i, next.epoch, next.revision)}
            && (!p.inst.pending[0].barrier ==> sh.log.facts.fences == p.shared.log.facts.fences)
  {
    var sh := Committing(p, i, next);
    assert sh.log.effects[|p.shared.log.effects|] == Committed(i, p.inst.pending[0], p.shared.file.record, next);
  }

  /** One tick of a burst: the head commits on top of the record there is. */
  lemma {:induction false} BurstTick(s: System, i: nat, o: Oracle, r: Record, base: nat)
    requires ProgressInv(s) && i < |s.instances| && s.instances[i].pending != [] && Permits(o)
    requires s.shared.file == Stored(r) && r.revision < MAX_SAFE_INTEGER && Eager(s.instances[i].pending, r.epoch, base)
    requires OwnGap(s.shared.log.facts, i, s.instances[i].pending[0], r.revision)
    ensures var t := Step(s, i, Tick, o);
            var pending := s.instances[i].pending;
            && ProgressInv(t) && |t.instances| == |s.instances| && t.instances[i].pending == pending[1..]
            && t.shared.file.Stored? && t.shared.file.record.epoch == r.epoch && t.shared.file.record.revision == r.revision + 1
            && CommittedIn(t.shared.log.effects, pending[0]) && s.shared.log.effects <= t.shared.log.effects
            && (pending[1..] != [] ==> OwnGap(t.shared.log.facts, i, pending[1], r.revision + 1))
  {
    var p := Pair(s.shared, s.instances[i]);
    var x := p.inst.pending[0];
    StepKeepsProgress(s, i, Tick, o);
    HeadOfBurst(p, i, o, r, base);
    var next := NextRecord(p, x, o).value;
    CommittingLogs(p, i, next);
    if p.inst.pending[1..] != [] {
      GapGrows(p.shared.log.facts, Committing(p, i, next).log.facts, i, x, p.inst.pending[1], next);
    }
  }

  lemma {:induction false} HeadOfBurst(p: Pair, i: nat, o: Oracle, r: Record, base: nat)
    requires PairInv(p, i) && ChainInv(p.shared.log.facts, i, p.inst) && p.inst.pending != [] && Permits(o)
    requires p.shared.file == Stored(r) && r.revision < MAX_SAFE_INTEGER && Eager(p.inst.pending, r.epoch, base)
    requires OwnGap(p.shared.log.facts, i, p.inst.pending[0], r.revision)
    ensures var next := NextRecord(p, p.inst.pending[0], o);
            && next.Some? && next.value.epoch == r.epoch && next.value.revision == r.revision + 1
            && TickStep(p, i, o).shared == Committing(p, i, next.value) && TickStep(p, i, o).inst.pending == p.inst.pending[1..]
            && !p.inst.pending[0].barrier && p.inst.pending[0].epoch == r.epoch
            && (|p.inst.pending| > 1 ==> p.inst.pending[1].epoch == r.epoch && p.inst.pending[1].base == p.inst.pending[0].base)
  {
    assert p.inst.pending[0] in p.inst.pending;
    assert |p.inst.pending| > 1 ==> p.inst.pending[1] in p.inst.pending;
    TickCommitsIff(p, i, o);
    TickCommitting(p, i, o);
  }

  lemma {:induction false} GapGrows(f: Facts, g: Facts, i: nat, x: Intent, y: Intent, next: Record)
    requires next.revision > 0 && OwnGap(f, i, x, next.revision - 1) && y.epoch == x.epoch == next.epoch && y.base == x.base
    requires g.own == f.own + {(i, next.epoch, next.revision)} && g.fences == f.fences
    ensures OwnGap(g, i, y, next.revision)
  {
  }

  lemma {:induction false} CommittedStays(a: seq<Effect>, b: seq<Effect>, x: Intent)
    requires CommittedIn(a, x) && a <= b
    ensures CommittedIn(b, x)
  {
    var k :| 0 <= k < |a| && a[k].Committed? && a[k].intent == x;
    assert b[k] == a[k];
  }

  /** From s to t, n of the pending intents have committed, one revision each. */
  ghost predicate Ticked(s: System, t: System, i: nat, r: Record, n: nat) {
    && ProgressInv(t) && i < |s.instances| && |t.instances| == |s.instances| && n <= |s.instances[i].pending|
    && t.instances[i].pending == s.instances[i].pending[n..]
    && t.shared.file.Stored? && t.shared.file.record.epoch == r.epoch && t.shared.file.record.revision == r.revision + n
    && (forall k :: 0 <= k < n ==> CommittedIn(t.shared.log.effects, s.instances[i].pending[k]))
    && (n < |s.instances[i].pending| ==> OwnGap(t.shared.log.facts, i, s.instances[i].pending[n], r.revision + n))
  }

  lemma {:induction false} TickedMore(s: System, t: System, i: nat, r: Record, base: nat, n: nat, o: Oracle)
    requires Ticked(s, t, i, r, n) && n < |s.instances[i].pending| && Permits(o)
    requires r.revision + n < MAX_SAFE_INTEGER && Eager(s.instances[i].pending, r.epoch, base)
    ensures Ticked(s, Step(t, i, Tick, o), i, r, n + 1)
  {
    var pending := s.instances[i].pending;
    assert pending[n..][0] == pending[n] && pending[n..][1..] == pending[n + 1..];
    assert forall x :: x in pending[n..] ==> x in pending;
    BurstTick(t, i, o, t.shared.file.record, base);
    var u := Step(t, i, Tick, o);
    forall k | 0 <= k < n + 1 ensures CommittedIn(u.shared.log.effects, pending[k]) {
      if k < n { CommittedStays(t.shared.log.effects, u.shared.log.effects, pending[k]); }
    }
  }

  /** As many ticks as wished: each commits the next intent. */
  lemma {:induction false} BurstTicks(s: System, i: nat, os: seq<Oracle>, r: Record, base: nat)
    requires ProgressInv(s) && i < |s.instances| && |os| <= |s.instances[i].pending| && AllPermit(os)
    requires s.shared.file == Stored(r) && r.revision + |os| <= MAX_SAFE_INTEGER && Eager(s.instances[i].pending, r.epoch, base)
    requires s.instances[i].pending != [] ==> OwnGap(s.shared.log.facts, i, s.instances[i].pending[0], r.revision)
    ensures Ticked(s, Run(s, Ticks(i, os)), i, r, |os|)
  {
    if os != [] {
      var n := |os| - 1;
      BurstTicks(s, i, os[..n], r, base);
      assert Ticks(i, os)[..n] == Ticks(i, os[..n]);
      TickedMore(s, Run(s, Ticks(i, os[..n])), i, r, base, n, os[n]);
    }
  }

  /** Enqueueing intents on different subjects, from a snapshot that is up to date. */
  ghost function Enqueues(i: nat, acts: seq<Action>, os: seq<Oracle>): (es: seq<Event>)
    requires |os| == |acts|
    ensures |es| == |acts| && forall k :: 0 <= k < |acts| ==> es[k] == Event(i, acts[k], os[k])
  {
    if acts == [] then [] else Enqueues(i, acts[..|acts| - 1], os[..|acts| - 1]) + [Event(i, acts[|acts| - 1], os[|acts| - 1])]
  }

  ghost predicate Independent(acts: seq<Action>) {
    && (forall k :: 0 <= k < |acts| ==> acts[k].Enqueue? && !acts[k].barrier && forall payload, v :: acts[k].update(payload, v).Some?)
    && (forall j, k :: 0 <= j < k < |acts| ==> acts[j].Enqueue? && acts[k].Enqueue? && acts[j].subject != acts[k].subject)
  }

  /** The pending intents are those enqueued, all based on the record r. */
  ghost predicate Burst(xs: seq<Intent>, acts: seq<Action>, r: Record) {
    && |xs| == |acts|
    && forall k :: 0 <= k < |xs| ==> acts[k].Enqueue? && xs[k] == Intent(xs[k].id, r.epoch, r.revision, acts[k].subject, acts[k].barrier, acts[k].update)
  }

  lemma {:induction false} NoneSuperseded(xs: seq<Intent>, subject: string)
    requires forall x :: x in xs ==> x.subject != subject
    ensures Select(xs, subject, false) == xs
  {
    if xs != [] {
      var n := |xs| - 1;
      assert xs == xs[..n] + [xs[n]] && xs[n] in xs;
      NoneSuperseded(xs[..n], subject);
    }
  }

  /** Instance i has just these intents pending and an up-to-date snapshot. */
  ghost predicate Queued(t: System, i: nat, r: Record, acts: seq<Action>) {
    && ProgressInv(t) && i < |t.instances| && t.shared.file == Stored(r)
    && t.instances[i].snapshot == Some(r) && !t.instances[i].needsRefresh && Burst(t.instances[i].pending, acts, r)
  }

  lemma {:induction false} BurstPush(p: Pair, i: nat, r: Record, acts: seq<Action>, a: Action)
    requires p.inst.snapshot == Some(r) && a.Enqueue? && Burst(p.inst.pending, acts, r)
    requires forall k :: 0 <= k < |acts| ==> acts[k].Enqueue? && acts[k].subject != a.subject
    ensures Burst(Push(p, i, a).inst.pending, acts + [a], r)
  {
    forall x | x in p.inst.pending ensures x.subject != a.subject {
      var k :| 0 <= k < |acts| && p.inst.pending[k] == x;
    }
    NoneSuperseded(p.inst.pending, a.subject);
  }

  lemma {:induction false} QueuedMore(t: System, i: nat, r: Record, acts: seq<Action>, a: Action, o: Oracle)
    requires Queued(t, i, r, acts) && a.Enqueue?
    requires forall k :: 0 <= k < |acts| ==> acts[k].Enqueue? && acts[k].subject != a.subject
    ensures Queued(Step(t, i, a, o), i, r, acts + [a])
  {
    var p := Pair(t.shared, t.instances[i]);
    StepKeepsProgress(t, i, a, o);
    PushIsStill(p, i, a);
    BurstPush(p, i, r, acts, a);
    assert StepOne(p, i, a, o) == Push(p, i, a);
  }

  lemma {:induction false} BurstEnqueues(s: System, i: nat, r: Record, acts: seq<Action>, os: seq<Oracle>)
    requires Queued(s, i, r, []) && Independent(acts) && |os| == |acts|
    ensures Queued(Run(s, Enqueues(i, acts, os)), i, r, acts)
  {
    if acts != [] {
      var n := |acts| - 1;
      BurstEnqueues(s, i, r, acts[..n], os[..n]);
      assert Enqueues(i, acts, os)[..n] == Enqueues(i, acts[..n], os[..n]);
      QueuedMore(Run(s, Enqueues(i, acts[..n], os[..n])), i, r, acts[..n], acts[n], os[n]);
      assert acts[..n] + [acts[n]] == acts;
    }
  }

  lemma {:induction false} BurstIsEager(xs: seq<Intent>, acts: seq<Action>, r: Record)
    requires Burst(xs, acts, r) && Independent(acts)
    ensures Eager(xs, r.epoch, r.revision)
  {
  }

  /**
   In every run, an instance that has just read the record enqueues any number of intents on
   different subjects and is left alone: as many ticks commit them all, each in a revision of its own.
   */
  lemma {:induction false} BurstCommits(file: Content, instances: nat, es: seq<Event>, i: nat, r: Record, acts: seq<Action>, os: seq<Oracle>, ticks: seq<Oracle>)
    requires var s := Run(Init(file, instances), es);
             && i < |s.instances| && s.instances[i].pending == [] && s.instances[i].snapshot == Some(r)
             && !s.instances[i].needsRefresh && s.shared.file == Stored(r)
    requires Independent(acts) && |os| == |acts| == |ticks| && AllPermit(ticks) && r.revision + |acts| <= MAX_SAFE_INTEGER
    ensures var s := Run(Init(file, instances), es);
            var queued := Run(s, Enqueues(i, acts, os));
            var done := Run(queued, Ticks(i, ticks));
            && i < |queued.instances| && i < |done.instances|
            && Burst(queued.instances[i].pending, acts, r) && done.instances[i].pending == []
            && (forall k :: 0 <= k < |acts| ==> CommittedIn(done.shared.log.effects, queued.instances[i].pending[k]))
            && done.shared.file.Stored? && done.shared.file.record.epoch == r.epoch
            && done.shared.file.record.revision == r.revision + |acts|
  {
    var s := Run(Init(file, instances), es);
    RunProgress(file, instances, es);
    BurstEnqueues(s, i, r, acts, os);
    var queued := Run(s, Enqueues(i, acts, os));
    BurstIsEager(queued.instances[i].pending, acts, r);
    BurstTicks(queued, i, ticks, r, r.revision);
  }
}
