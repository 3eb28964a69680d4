/**
 The revisioned shell memory: one record on disk, shared under a lock by any
 number of instances, each with its own queue of pending intents. Commits are
 synchronous, so every queue tick, read, enqueue and rebuild is one atomic step;
 the lock, the validity checks and the outcome of the write are answered by the
 environment. A write that reports failure leaves the prior content, nothing,
 something that is not a record, a newer record of a writer that ignores the lock,
 or, when even the rollback fails, the very record it attempted.
 */
module ShellMemory {
  import opened Wrappers

  const MAX_SAFE_INTEGER: nat := 0x1F_FFFF_FFFF_FFFF

  // ---------- Data ----------

  /** Payloads are compared and stored as their serialised text. */
  type Payload = string

  datatype Record = Record(epoch: nat, revision: nat, payload: Payload)

  /** What `load` can see: nothing, a record, or anything it rejects. */
  datatype Content = Absent | Stored(record: Record) | Damaged

  /** `update` answers None when it declines or the payload is not valid. */
  datatype Intent = Intent(id: nat, epoch: nat, base: nat, subject: string, barrier: bool,
                              update: (Payload, nat) -> Option<Payload>)

  /** One step of an instance's chain of own commits. */
  datatype Link = Link(epoch: nat, from: nat, to: nat)

  datatype Instance = Instance(
    snapshot: Option<Record>,
    pending: seq<Intent>,
    scheduled: bool,
    proof: seq<Link>,
    needsRefresh: bool)

  /** What happened, oldest first; `instance` is the acting instance. */
  datatype Effect =
    | Enqueued(instance: nat, id: nat)
    | Resolved(instance: nat, id: nat, ok: bool)
    | Founded(record: Record)
    | Committed(instance: nat, intent: Intent, before: Record, after: Record)
    | Stranded(record: Record)     // on disk after a write that reported failure

  /** A barrier commit: every id below `bound` was enqueued before it. */
  datatype Fence = Fence(bound: nat, epoch: nat, revision: nat)

  /** What a log says about identities, publications and fences. */
  datatype Facts = Facts(
    good: bool,
    next: nat,                        // ids handed out so far
    owner: map<nat, nat>,             // which instance an id belongs to
    resolved: set<nat>,
    last: Option<Record>,          // the last record published
    own: set<(nat, nat, nat)>,        // (instance, epoch, revision) of every commit
    fences: map<nat, Fence>)

  datatype Log = Log(effects: seq<Effect>, facts: Facts) {
    ghost function Append(e: Effect): Log { Log(effects + [e], After(facts, e)) }
    ghost predicate Sound() { facts == FactsOf(effects) }
  }

  datatype Shared = Shared(file: Content, epochs: nat, log: Log)

  datatype System = System(shared: Shared, instances: seq<Instance>)

  /** A record of a writer that ignores the lock: further on in the last epoch, or in one never seen. */
  datatype Foreign = Ahead(steps: nat, text: Payload) | Elsewhere(skipped: nat, at: nat, text: Payload)

  /** What a write reports and leaves; all but the first report failure. */
  datatype WriteOutcome = Wrote | PriorKept | NothingLeft | DamageLeft | AttemptLeft | ForeignLeft(foreign: Foreign)

  /** The foreign record, given the last one on disk and the epochs seen so far. */
  function ForeignRecord(foreign: Foreign, last: Option<Record>, epochs: nat): Record {
    match foreign
    case Ahead(steps, text) => if last.Some? then Record(last.value.epoch, last.value.revision + 1 + steps, text) else Record(epochs, steps, text)
    case Elsewhere(skipped, at, text) => Record(epochs + skipped, at, text)
  }

  /** Epochs seen once this record is on disk as well. */
  function EpochsWith(epochs: nat, r: Record): nat {
    if r.epoch < epochs then epochs else r.epoch + 1
  }

  /** Environment answers that one step may need. */
  datatype Oracle = Oracle(locked: bool, valid: bool, stillValid: bool, initial: Payload, write: WriteOutcome)

  datatype Action =
    | Read
    | Enqueue(subject: string, barrier: bool, update: (Payload, nat) -> Option<Payload>)
    | Tick
    | Rebuild

  // ---------- Log facts ----------

  /** Admissible commit: it extends the last published record by its own update, and the gap is its own. */
  ghost predicate GoodCommit(f: Facts, i: nat, x: Intent, before: Record, after: Record) {
    && f.last == Some(before)
    && before.epoch == x.epoch == after.epoch
    && after.revision == before.revision + 1
    && x.update(before.payload, after.revision) == Some(after.payload)
    && x.base <= before.revision
    && (forall v :: x.base < v <= before.revision ==> (i, x.epoch, v) in f.own)
    && x.id in f.owner && f.owner[x.id] == i
    && (i in f.fences ==> f.fences[i].bound <= x.id)
  }

  /** Versions are ordered by epoch, then by revision. */
  predicate Precedes(r1: Record, r2: Record) {
    r1.epoch < r2.epoch || (r1.epoch == r2.epoch && r1.revision < r2.revision)
  }

  ghost function After(f: Facts, e: Effect): Facts {
    match e
    case Enqueued(i, id) =>
      f.(good := f.good && id == f.next, next := f.next + 1, owner := f.owner[id := i])
    case Resolved(i, id, _) =>
      f.(good := f.good && id in f.owner && f.owner[id] == i && id !in f.resolved, resolved := f.resolved + {id})
    case Founded(r) =>
      f.(good := f.good && (f.last.Some? ==> f.last.value.epoch < r.epoch), last := Some(r))
    case Stranded(r) =>
      f.(good := f.good && (f.last.Some? ==> Precedes(f.last.value, r)), last := Some(r))
    case Committed(i, x, before, after) =>
      f.(good := f.good && GoodCommit(f, i, x, before, after),
         last := Some(after),
         own := f.own + {(i, after.epoch, after.revision)},
         fences := if x.barrier then f.fences[i := Fence(f.next, after.epoch, after.revision)] else f.fences)
  }

  ghost function NoFacts(): Facts {
    Facts(true, 0, map[], {}, None, {}, map[])
  }

  ghost function FactsOf(effects: seq<Effect>): Facts {
    if effects == [] then NoFacts() else After(FactsOf(effects[..|effects| - 1]), effects[|effects| - 1])
  }

  // ---------- One instance against the shared file ----------

  datatype Pair = Pair(shared: Shared, inst: Instance)

  ghost function Note(sh: Shared, e: Effect): Shared {
    sh.(log := sh.log.Append(e))
  }

  /** The file after a write that reported failure. */
  ghost function Failed(sh: Shared, attempted: Record, outcome: WriteOutcome): Shared {
    match outcome
    case Wrote => sh
    case PriorKept => sh
    case NothingLeft => sh.(file := Absent)
    case DamageLeft => sh.(file := Damaged)
    case AttemptLeft => Note(sh.(file := Stored(attempted)), Stranded(attempted))
    case ForeignLeft(foreign) =>
      var r := ForeignRecord(foreign, sh.log.facts.last, sh.epochs);
      Note(sh.(file := Stored(r), epochs := EpochsWith(sh.epochs, r)), Stranded(r))
  }

  /** Found a new epoch at revision 0. */
  ghost function Found(p: Pair, o: Oracle): Pair {
    var first := Record(p.shared.epochs, 0, o.initial);
    var sh := p.shared.(epochs := p.shared.epochs + 1);
    if o.write.Wrote? then Pair(Note(sh.(file := Stored(first)), Founded(first)), p.inst.(snapshot := Some(first)))
    else Pair(Failed(sh, first, o.write), p.inst)
  }

  /** The flag says whether a record was read. */
  ghost function ReadRecord(p: Pair, o: Oracle): (Pair, bool) {
    if !o.locked then (p, false) else
    match p.shared.file
    case Absent =>
      if o.write.Wrote? then (Found(p, o).(inst := Found(p, o).inst.(needsRefresh := false)), true)
      else (Found(p, o), false)
    case Stored(r) => (p.(inst := p.inst.(snapshot := Some(r), needsRefresh := false)), true)
    case Damaged => (p.(inst := p.inst.(snapshot := None, needsRefresh := false)), false)
  }

  ghost function ResolveAll(sh: Shared, i: nat, intents: seq<Intent>): Shared {
    if intents == [] then sh
    else Note(ResolveAll(sh, i, intents[..|intents| - 1]), Resolved(i, intents[|intents| - 1].id, false))
  }

  predicate Superseded(x: Intent, subject: string) {
    !x.barrier && x.subject == subject
  }

  function Select(xs: seq<Intent>, subject: string, superseded: bool): (r: seq<Intent>)
    ensures forall x :: x in r <==> x in xs && Superseded(x, subject) == superseded
  {
    if xs == [] then [] else
    var n := |xs| - 1;
    Select(xs[..n], subject, superseded) + if Superseded(xs[n], subject) == superseded then [xs[n]] else []
  }

  lemma {:induction false} SelectSnoc(xs: seq<Intent>, k: nat, subject: string, superseded: bool)
    requires k < |xs|
    ensures Select(xs[..k + 1], subject, superseded) ==
            if Superseded(xs[k], subject) == superseded then Select(xs[..k], subject, superseded) + [xs[k]]
            else Select(xs[..k], subject, superseded)
  {
    assert xs[..k + 1][..k] == xs[..k];
  }

  /** Append an intent based on the snapshot, dropping the pending intents it supersedes. */
  ghost function Push(p: Pair, i: nat, a: Action): Pair
    requires a.Enqueue? && p.inst.snapshot.Some?
  {
    var base := p.inst.snapshot.value;
    var sh := ResolveAll(p.shared, i, Select(p.inst.pending, a.subject, true));
    var x := Intent(sh.log.facts.next, base.epoch, base.revision, a.subject, a.barrier, a.update);
    Pair(Note(sh, Enqueued(i, x.id)),
         p.inst.(pending := Select(p.inst.pending, a.subject, false) + [x], scheduled := true))
  }

  ghost function EnqueueStep(p: Pair, i: nat, a: Action, o: Oracle): Pair
    requires a.Enqueue?
  {
    if p.inst.snapshot.Some? && !p.inst.needsRefresh then Push(p, i, a) else
    var (p1, found) := ReadRecord(p, o);
    if found then Push(p1, i, a) else p1
  }

  /** The revision an intent expects, following the instance's own commits from its base. */
  function Expected(proof: seq<Link>, epoch: nat, base: nat): nat {
    if proof == [] then base else
    var e := Expected(proof[..|proof| - 1], epoch, base);
    var l := proof[|proof| - 1];
    if l.epoch == epoch && l.from == e then l.to else e
  }

  /** The checks before the write: the record to publish, or None. */
  function NextRecord(p: Pair, x: Intent, o: Oracle): Option<Record> {
    if !o.valid || !o.locked || !p.shared.file.Stored? then None else
    var r := p.shared.file.record;
    if r.epoch != x.epoch || r.revision != Expected(p.inst.proof, x.epoch, x.base) then None
    else if !o.stillValid || r.revision == MAX_SAFE_INTEGER then None
    else
      var payload := x.update(r.payload, r.revision + 1);
      if payload.None? then None else Some(Record(r.epoch, r.revision + 1, payload.value))
  }

  ghost function Commit(p: Pair, i: nat, x: Intent, o: Oracle): (Pair, bool) {
    var next := NextRecord(p, x, o);
    if next.None? then (p, false)
    else if !o.write.Wrote? then (p.(shared := Failed(p.shared, next.value, o.write)), false)
    else
      var r := p.shared.file.record;
      var link := Link(r.epoch, r.revision, r.revision + 1);
      (Pair(Note(p.shared.(file := Stored(next.value)), Committed(i, x, r, next.value)),
            p.inst.(snapshot := next, proof := if x.barrier then p.inst.proof else p.inst.proof + [link])), true)
  }

  ghost function TickStep(p: Pair, i: nat, o: Oracle): Pair {
    if !p.inst.scheduled then p
    else if p.inst.pending == [] then p.(inst := p.inst.(scheduled := false, proof := []))
    else
      var x := p.inst.pending[0];
      var rest := p.inst.pending[1..];
      var (p1, ok) := Commit(p.(inst := p.inst.(scheduled := false, pending := rest)), i, x, o);
      var sh := Note(p1.shared, Resolved(i, x.id, ok));
      if !ok then
        Pair(ResolveAll(sh, i, rest), p1.inst.(pending := [], proof := [], needsRefresh := true))
      else
        Pair(sh, p1.inst.(scheduled := rest != [],
                          proof := if x.barrier || rest == [] then [] else p1.inst.proof))
  }

  ghost function RebuildStep(p: Pair, i: nat, o: Oracle): Pair {
    var p1 := Pair(ResolveAll(p.shared, i, p.inst.pending), p.inst.(pending := [], proof := []));
    if !o.locked then p1 else
    var p2 := Found(p1, o);
    p2.(inst := p2.inst.(needsRefresh := !o.write.Wrote?))
  }

  ghost function StepOne(p: Pair, i: nat, a: Action, o: Oracle): Pair {
    match a
    case Read => ReadRecord(p, o).0
    case Enqueue(_, _, _) => EnqueueStep(p, i, a, o)
    case Tick => TickStep(p, i, o)
    case Rebuild => RebuildStep(p, i, o)
  }

  /** Instance `i` acts; an index without an instance changes nothing. */
  ghost function Step(s: System, i: nat, a: Action, o: Oracle): System {
    if i >= |s.instances| then s else
    var p := StepOne(Pair(s.shared, s.instances[i]), i, a, o);
    System(p.shared, s.instances[i := p.inst])
  }

  // ---------- Invariant ----------

  /** Versions are ordered by epoch, then by revision. */
  predicate AtMost(e1: nat, r1: nat, e2: nat, r2: nat) {
    e1 < e2 || (e1 == e2 && r1 <= r2)
  }

  ghost predicate SharedInv(sh: Shared) {
    var f := sh.log.facts;
    && sh.log.Sound() && f.good
    && (sh.file.Stored? ==> f.last == Some(sh.file.record))
    && (f.last.Some? ==> f.last.value.epoch < sh.epochs)
    && (forall id :: id in f.owner <==> 0 <= id < f.next)
    && (forall id :: id in f.resolved ==> id < f.next)
    && (forall i :: i in f.fences ==>
          f.fences[i].bound <= f.next && f.last.Some? &&
          AtMost(f.fences[i].epoch, f.fences[i].revision, f.last.value.epoch, f.last.value.revision))
  }

  /** A pending intent: owned, unresolved, based on a published version, below the fence if it is older. */
  ghost predicate GoodIntent(f: Facts, i: nat, x: Intent) {
    && x.id in f.owner && f.owner[x.id] == i && x.id !in f.resolved
    && f.last.Some? && AtMost(x.epoch, x.base, f.last.value.epoch, f.last.value.revision)
    && (i in f.fences && x.id < f.fences[i].bound ==>
          !AtMost(f.fences[i].epoch, f.fences[i].revision, x.epoch, x.base))
  }

  /** A link of the proof: an own commit, not older than the fence. */
  ghost predicate GoodLink(f: Facts, i: nat, l: Link) {
    && l.to == l.from + 1 && (i, l.epoch, l.to) in f.own
    && (i in f.fences ==> AtMost(f.fences[i].epoch, f.fences[i].revision, l.epoch, l.from))
  }

  /** Pending ids increase, and nothing pending is superseded by what was enqueued after it. */
  ghost predicate Ordered(xs: seq<Intent>) {
    forall a, b :: 0 <= a < b < |xs| ==> xs[a].id < xs[b].id && !Superseded(xs[a], xs[b].subject)
  }

  ghost function Ids(xs: seq<Intent>): set<nat> {
    set x | x in xs :: x.id
  }

  /** The queue of instance `i` holds exactly its unresolved intents. */
  ghost predicate QueueInv(f: Facts, i: nat, pending: seq<Intent>) {
    && (forall x :: x in pending ==> GoodIntent(f, i, x))
    && Ordered(pending)
    && (forall id :: id in f.owner && f.owner[id] == i && id !in f.resolved ==> id in Ids(pending))
  }

  ghost predicate ProofInv(f: Facts, i: nat, proof: seq<Link>) {
    forall k :: 0 <= k < |proof| ==> GoodLink(f, i, proof[k])
  }

  ghost predicate SnapshotInv(f: Facts, snapshot: Option<Record>) {
    snapshot.None? ||
    (f.last.Some? && AtMost(snapshot.value.epoch, snapshot.value.revision, f.last.value.epoch, f.last.value.revision))
  }

  ghost predicate InstInv(f: Facts, i: nat, inst: Instance) {
    && QueueInv(f, i, inst.pending)
    && ProofInv(f, i, inst.proof)
    && SnapshotInv(f, inst.snapshot)
    && (inst.pending != [] ==> inst.scheduled)
  }

  ghost predicate PairInv(p: Pair, i: nat) {
    SharedInv(p.shared) && InstInv(p.shared.log.facts, i, p.inst)
  }

  ghost predicate Inv(s: System) {
    && SharedInv(s.shared)
    && (forall i :: 0 <= i < |s.instances| ==> InstInv(s.shared.log.facts, i, s.instances[i]))
    && (forall id :: id in s.shared.log.facts.owner ==> s.shared.log.facts.owner[id] < |s.instances|)
  }

  lemma {:induction false} AppendFacts(log: Log, e: Effect)
    requires log.Sound()
    ensures log.Append(e).Sound()
  {
    assert (log.effects + [e])[..|log.effects|] == log.effects;
  }

  /** What instance `i` may rely on while another instance acts. */
  ghost predicate Grows(f: Facts, g: Facts, i: nat) {
    && (f.last.Some? ==> g.last.Some? && AtMost(f.last.value.epoch, f.last.value.revision, g.last.value.epoch, g.last.value.revision))
    && f.own <= g.own
    && (i in f.fences <==> i in g.fences) && (i in f.fences ==> f.fences[i] == g.fences[i])
    && (forall id :: id in f.owner ==> id in g.owner && g.owner[id] == f.owner[id])
    && (forall id :: id in g.owner && g.owner[id] == i ==> id in f.owner && f.owner[id] == i)
    && (forall id :: id in g.owner && g.owner[id] == i ==> (id in f.resolved <==> id in g.resolved))
  }

  lemma {:induction false} GrowsKeepsInstance(f: Facts, g: Facts, i: nat, inst: Instance)
    requires InstInv(f, i, inst) && Grows(f, g, i)
    ensures InstInv(g, i, inst)
  {
    forall x | x in inst.pending ensures GoodIntent(g, i, x) {
      assert GoodIntent(f, i, x);
    }
    forall k | 0 <= k < |inst.proof| ensures GoodLink(g, i, inst.proof[k]) {
      assert GoodLink(f, i, inst.proof[k]);
    }
  }

  // ---------- Proofs per operation ----------

  lemma {:induction false} ResolveOneFacts(sh: Shared, i: nat, id: nat)
    requires SharedInv(sh) && id in sh.log.facts.owner && sh.log.facts.owner[id] == i && id !in sh.log.facts.resolved
    ensures var sh' := Note(sh, Resolved(i, id, false));
            SharedInv(sh') && sh'.log.facts == sh.log.facts.(resolved := sh.log.facts.resolved + {id})
  {
    AppendFacts(sh.log, Resolved(i, id, false));
  }

  lemma {:induction false} LastIdIsNew(xs: seq<Intent>)
    requires xs != [] && Ordered(xs)
    ensures var n := |xs| - 1; xs[n].id !in Ids(xs[..n]) && Ids(xs) == Ids(xs[..n]) + {xs[n].id}
  {
    var n := |xs| - 1;
    assert xs == xs[..n] + [xs[n]];
  }

  /** Resolving a list of distinct, owned, unresolved intents. */
  lemma {:induction false} ResolveAllFacts(sh: Shared, i: nat, xs: seq<Intent>)
    requires SharedInv(sh) && Ordered(xs)
    requires forall x :: x in xs ==>
               x.id in sh.log.facts.owner && sh.log.facts.owner[x.id] == i && x.id !in sh.log.facts.resolved
    ensures var sh' := ResolveAll(sh, i, xs);
            && SharedInv(sh')
            && sh' == sh.(log := sh'.log)
            && sh'.log.facts == sh.log.facts.(resolved := sh.log.facts.resolved + Ids(xs))
  {
    if xs != [] {
      var n := |xs| - 1;
      var front := xs[..n];
      assert xs == front + [xs[n]];
      ResolveAllFacts(sh, i, front);
      var mid := ResolveAll(sh, i, front);
      LastIdIsNew(xs);
      ResolveOneFacts(mid, i, xs[n].id);
    } else {
      assert Ids(xs) == {};
    }
  }

  lemma {:induction false} StrandedKeeps(sh: Shared, r: Record)
    requires SharedInv(sh) && (sh.log.facts.last.Some? ==> Precedes(sh.log.facts.last.value, r))
    ensures SharedInv(Note(sh.(file := Stored(r), epochs := EpochsWith(sh.epochs, r)), Stranded(r)))
    ensures forall j :: Grows(sh.log.facts, After(sh.log.facts, Stranded(r)), j)
  {
    AppendFacts(sh.log, Stranded(r));
  }

  /** A record that comes after everything published may be left behind without harm. */
  lemma {:induction false} FailedKeeps(sh: Shared, attempted: Record, outcome: WriteOutcome)
    requires SharedInv(sh) && attempted.epoch < sh.epochs
    requires sh.log.facts.last.Some? ==> Precedes(sh.log.facts.last.value, attempted)
    ensures SharedInv(Failed(sh, attempted, outcome))
    ensures forall j :: Grows(sh.log.facts, Failed(sh, attempted, outcome).log.facts, j)
  {
    if outcome.AttemptLeft? {
      StrandedKeeps(sh, attempted);
    } else if outcome.ForeignLeft? {
      StrandedKeeps(sh, ForeignRecord(outcome.foreign, sh.log.facts.last, sh.epochs));
    }
  }

  lemma {:induction false} FoundedKeeps(sh: Shared, first: Record)
    requires SharedInv(sh) && first.epoch < sh.epochs
    requires sh.log.facts.last.Some? ==> sh.log.facts.last.value.epoch < first.epoch
    ensures SharedInv(Note(sh.(file := Stored(first)), Founded(first)))
    ensures forall j :: Grows(sh.log.facts, After(sh.log.facts, Founded(first)), j)
  {
    AppendFacts(sh.log, Founded(first));
  }

  lemma {:induction false} FoundKeeps(p: Pair, i: nat, o: Oracle)
    requires PairInv(p, i)
    ensures PairInv(Found(p, o), i)
    ensures forall j :: Grows(p.shared.log.facts, Found(p, o).shared.log.facts, j)
  {
    var first := Record(p.shared.epochs, 0, o.initial);
    var sh := p.shared.(epochs := p.shared.epochs + 1);
    assert SharedInv(sh);
    if o.write.Wrote? {
      FoundedKeeps(sh, first);
      assert Found(p, o).shared == Note(sh.(file := Stored(first)), Founded(first));
    } else {
      FailedKeeps(sh, first, o.write);
      assert Found(p, o).shared == Failed(sh, first, o.write);
    }
    GrowsKeepsInstance(p.shared.log.facts, Found(p, o).shared.log.facts, i, p.inst);
  }

  lemma {:induction false} ReadKeeps(p: Pair, i: nat, o: Oracle)
    requires PairInv(p, i)
    ensures PairInv(ReadRecord(p, o).0, i)
    ensures ReadRecord(p, o).1 ==> ReadRecord(p, o).0.inst.snapshot.Some?
    ensures forall j :: Grows(p.shared.log.facts, ReadRecord(p, o).0.shared.log.facts, j)
  {
    match p.shared.file
    case Absent => FoundKeeps(p, i, o);
    case Stored(_) =>
    case Damaged =>
  }

  lemma {:induction false} SelectKeepsOrder(xs: seq<Intent>, subject: string, superseded: bool)
    requires Ordered(xs)
    ensures Ordered(Select(xs, subject, superseded))
  {
    if xs != [] {
      var n := |xs| - 1;
      assert xs == xs[..n] + [xs[n]];
      SelectKeepsOrder(xs[..n], subject, superseded);
      var r := Select(xs[..n], subject, superseded);
      forall k | 0 <= k < |r| ensures r[k].id < xs[n].id && !Superseded(r[k], xs[n].subject) {
        assert r[k] in xs[..n];
      }
    }
  }

  lemma {:induction false} SameId(xs: seq<Intent>, x: Intent, y: Intent)
    requires Ordered(xs) && x in xs && y in xs && x.id == y.id
    ensures x == y
  {
    var a :| 0 <= a < |xs| && xs[a] == x;
    var b :| 0 <= b < |xs| && xs[b] == y;
  }

  /** Dropping the superseded intents resolves exactly those. */
  lemma {:induction false} DropKeepsQueue(f: Facts, i: nat, pending: seq<Intent>, subject: string)
    requires QueueInv(f, i, pending)
    ensures var dropped, kept := Select(pending, subject, true), Select(pending, subject, false);
            && Ordered(dropped) && Ordered(kept)
            && QueueInv(f.(resolved := f.resolved + Ids(dropped)), i, kept)
  {
    var dropped, kept := Select(pending, subject, true), Select(pending, subject, false);
    SelectKeepsOrder(pending, subject, true);
    SelectKeepsOrder(pending, subject, false);
    var g := f.(resolved := f.resolved + Ids(dropped));
    forall x | x in kept ensures GoodIntent(g, i, x) {
      assert GoodIntent(f, i, x);
      if x.id in Ids(dropped) {
        var y :| y in dropped && y.id == x.id;
        SameId(pending, x, y);
      }
    }
    forall id | id in g.owner && g.owner[id] == i && id !in g.resolved
      ensures id in Ids(kept)
    {
      var x :| x in pending && x.id == id;
      assert x !in dropped;
    }
  }

  lemma {:induction false} ProofOfSame(f: Facts, g: Facts, i: nat, proof: seq<Link>)
    requires ProofInv(f, i, proof) && f.own <= g.own && f.fences == g.fences
    ensures ProofInv(g, i, proof)
  {
    forall k | 0 <= k < |proof| ensures GoodLink(g, i, proof[k]) {
      assert GoodLink(f, i, proof[k]);
    }
  }

  /** A new intent with the next id joins the queue. */
  lemma {:induction false} JoinKeepsQueue(f: Facts, i: nat, kept: seq<Intent>, x: Intent)
    requires QueueInv(f, i, kept)
    requires forall y :: y in kept ==> !Superseded(y, x.subject)
    requires x.id == f.next && (forall id :: id in f.owner <==> 0 <= id < f.next)
    requires forall id :: id in f.resolved ==> id < f.next
    requires i in f.fences ==> f.fences[i].bound <= f.next
    requires f.last.Some? && AtMost(x.epoch, x.base, f.last.value.epoch, f.last.value.revision)
    ensures QueueInv(f.(next := f.next + 1, owner := f.owner[f.next := i]), i, kept + [x])
  {
    var g := f.(next := f.next + 1, owner := f.owner[f.next := i]);
    forall y | y in kept + [x] ensures GoodIntent(g, i, y) {
      if y in kept { assert GoodIntent(f, i, y); }
    }
    forall k | 0 <= k < |kept| ensures kept[k].id < x.id && !Superseded(kept[k], x.subject) {
      assert kept[k] in kept && GoodIntent(f, i, kept[k]);
    }
    forall id | id in g.owner && g.owner[id] == i && id !in g.resolved ensures id in Ids(kept + [x]) {
      if id == f.next {
        assert x in kept + [x];
      } else {
        var y :| y in kept && y.id == id;
        assert y in kept + [x];
      }
    }
  }

  lemma {:induction false} NoteEnqueued(sh: Shared, i: nat)
    requires SharedInv(sh)
    ensures SharedInv(Note(sh, Enqueued(i, sh.log.facts.next)))
  {
    AppendFacts(sh.log, Enqueued(i, sh.log.facts.next));
  }

  /** Resolving and enqueuing on behalf of `i` do not concern another instance. */
  lemma {:induction false} OwnIdsGrow(f: Facts, g: Facts, i: nat, ids: set<nat>)
    requires forall id :: id in ids ==> id in f.owner && f.owner[id] == i
    requires forall id :: id in f.owner ==> id < f.next
    requires g == f.(resolved := f.resolved + ids) ||
             g == f.(resolved := f.resolved + ids, next := f.next + 1, owner := f.owner[f.next := i])
    ensures forall j :: j != i ==> Grows(f, g, j)
  {
  }

  lemma {:induction false} PushKeeps(p: Pair, i: nat, a: Action)
    requires PairInv(p, i) && a.Enqueue? && p.inst.snapshot.Some?
    ensures PairInv(Push(p, i, a), i)
    ensures forall j :: j != i ==> Grows(p.shared.log.facts, Push(p, i, a).shared.log.facts, j)
  {
    var dropped, kept := Select(p.inst.pending, a.subject, true), Select(p.inst.pending, a.subject, false);
    var f := p.shared.log.facts;
    DropKeepsQueue(f, i, p.inst.pending, a.subject);
    forall x | x in dropped ensures GoodIntent(f, i, x) {}
    ResolveAllFacts(p.shared, i, dropped);
    var sh := ResolveAll(p.shared, i, dropped);
    var base := p.inst.snapshot.value;
    var x := Intent(f.next, base.epoch, base.revision, a.subject, a.barrier, a.update);
    var r := Push(p, i, a);
    var g := r.shared.log.facts;
    assert r.inst.pending == kept + [x] && r.shared == Note(sh, Enqueued(i, f.next));
    NoteEnqueued(sh, i);
    assert QueueInv(g, i, r.inst.pending) by { JoinKeepsQueue(sh.log.facts, i, kept, x); }
    assert ProofInv(g, i, r.inst.proof) by { ProofOfSame(f, g, i, p.inst.proof); }
    OwnIdsGrow(f, g, i, Ids(dropped));
  }

  /** Following own commits from a base passes only through own revisions. */
  lemma {:induction false} ExpectedIsOwn(f: Facts, i: nat, proof: seq<Link>, epoch: nat, base: nat)
    requires ProofInv(f, i, proof)
    ensures base <= Expected(proof, epoch, base)
    ensures forall v :: base < v <= Expected(proof, epoch, base) ==> (i, epoch, v) in f.own
  {
    if proof != [] {
      var n := |proof| - 1;
      assert GoodLink(f, i, proof[n]);
      forall k | 0 <= k < n ensures GoodLink(f, i, proof[..n][k]) { assert GoodLink(f, i, proof[k]); }
      ExpectedIsOwn(f, i, proof[..n], epoch, base);
    }
  }

  /** Below the fence no own commit leads on. */
  lemma {:induction false} ExpectedIsStuck(f: Facts, i: nat, proof: seq<Link>, epoch: nat, base: nat)
    requires ProofInv(f, i, proof) && i in f.fences
    requires !AtMost(f.fences[i].epoch, f.fences[i].revision, epoch, base)
    ensures Expected(proof, epoch, base) == base
  {
    if proof != [] {
      var n := |proof| - 1;
      assert GoodLink(f, i, proof[n]);
      forall k | 0 <= k < n ensures GoodLink(f, i, proof[..n][k]) { assert GoodLink(f, i, proof[k]); }
      ExpectedIsStuck(f, i, proof[..n], epoch, base);
    }
  }

  /** Every commit the code performs is admissible. */
  lemma {:induction false} CommitIsGood(p: Pair, i: nat, x: Intent, o: Oracle)
    requires PairInv(p, i) && GoodIntent(p.shared.log.facts, i, x) && NextRecord(p, x, o).Some?
    ensures GoodCommit(p.shared.log.facts, i, x, p.shared.file.record, NextRecord(p, x, o).value)
  {
    var f := p.shared.log.facts;
    ExpectedIsOwn(f, i, p.inst.proof, x.epoch, x.base);
    if i in f.fences && x.id < f.fences[i].bound {
      ExpectedIsStuck(f, i, p.inst.proof, x.epoch, x.base);
      assert false;
    }
  }

  lemma {:induction false} NoteCommitted(sh: Shared, i: nat, x: Intent, after: Record)
    requires SharedInv(sh) && sh.file.Stored? && GoodCommit(sh.log.facts, i, x, sh.file.record, after)
    ensures SharedInv(Note(sh.(file := Stored(after)), Committed(i, x, sh.file.record, after)))
    ensures forall j :: j != i ==>
              Grows(sh.log.facts, After(sh.log.facts, Committed(i, x, sh.file.record, after)), j)
  {
    AppendFacts(sh.log, Committed(i, x, sh.file.record, after));
  }

  lemma {:induction false} CommittedQueue(f: Facts, i: nat, x: Intent, before: Record, after: Record, pending: seq<Intent>)
    requires QueueInv(f, i, pending) && f.last == Some(before)
    requires after.epoch == before.epoch && after.revision == before.revision + 1
    ensures QueueInv(After(f, Committed(i, x, before, after)), i, pending)
  {
    var g := After(f, Committed(i, x, before, after));
    forall y | y in pending ensures GoodIntent(g, i, y) {
      assert GoodIntent(f, i, y);
    }
  }

  lemma {:induction false} CommittedProof(f: Facts, i: nat, x: Intent, before: Record, after: Record, proof: seq<Link>)
    requires ProofInv(f, i, proof) && !x.barrier
    requires after.epoch == before.epoch && after.revision == before.revision + 1
    requires i in f.fences ==> AtMost(f.fences[i].epoch, f.fences[i].revision, before.epoch, before.revision)
    ensures ProofInv(After(f, Committed(i, x, before, after)), i,
                     proof + [Link(before.epoch, before.revision, after.revision)])
  {
    var g := After(f, Committed(i, x, before, after));
    var longer := proof + [Link(before.epoch, before.revision, after.revision)];
    forall k | 0 <= k < |longer| ensures GoodLink(g, i, longer[k]) {
      if k < |proof| { assert GoodLink(f, i, proof[k]); }
    }
  }

  /** Resolving the head of the queue leaves the tail. */
  lemma {:induction false} PopKeepsQueue(f: Facts, i: nat, pending: seq<Intent>)
    requires QueueInv(f, i, pending) && pending != []
    ensures QueueInv(f.(resolved := f.resolved + {pending[0].id}), i, pending[1..])
  {
    var g := f.(resolved := f.resolved + {pending[0].id});
    var rest := pending[1..];
    assert pending == [pending[0]] + rest;
    forall k | 0 <= k < |rest| ensures GoodIntent(g, i, rest[k]) {
      assert rest[k] in pending && GoodIntent(f, i, rest[k]) && pending[0].id < pending[k + 1].id;
    }
    forall id | id in g.owner && g.owner[id] == i && id !in g.resolved ensures id in Ids(rest) {
      var y :| y in pending && y.id == id;
      assert y in rest;
    }
  }

  lemma {:induction false} NoteResolved(sh: Shared, i: nat, x: Intent, ok: bool)
    requires SharedInv(sh) && GoodIntent(sh.log.facts, i, x)
    ensures SharedInv(Note(sh, Resolved(i, x.id, ok)))
    ensures Note(sh, Resolved(i, x.id, ok)).log.facts == sh.log.facts.(resolved := sh.log.facts.resolved + {x.id})
  {
    AppendFacts(sh.log, Resolved(i, x.id, ok));
  }

  /** Dropping a whole queue. */
  lemma {:induction false} DropAll(sh: Shared, i: nat, pending: seq<Intent>)
    requires SharedInv(sh) && QueueInv(sh.log.facts, i, pending)
    ensures var sh' := ResolveAll(sh, i, pending);
            && SharedInv(sh')
            && sh' == sh.(log := sh'.log)
            && sh'.log.facts == sh.log.facts.(resolved := sh.log.facts.resolved + Ids(pending))
            && QueueInv(sh'.log.facts, i, [])
  {
    forall x | x in pending ensures GoodIntent(sh.log.facts, i, x) {}
    ResolveAllFacts(sh, i, pending);
  }

  /** The shared state after the head intent has been tried and resolved. */
  ghost function AfterHead(p: Pair, i: nat, o: Oracle): Shared
    requires p.inst.pending != []
  {
    var (p1, ok) := Commit(p, i, p.inst.pending[0], o);
    Note(p1.shared, Resolved(i, p.inst.pending[0].id, ok))
  }

  lemma {:induction false} HeadKeeps(p: Pair, i: nat, o: Oracle)
    requires PairInv(p, i) && p.inst.pending != []
    ensures var x := p.inst.pending[0];
            var (p1, ok) := Commit(p, i, x, o);
            var sh := AfterHead(p, i, o);
            && SharedInv(sh)
            && QueueInv(sh.log.facts, i, p.inst.pending[1..])
            && (x.barrier || ProofInv(sh.log.facts, i, p1.inst.proof))
            && SnapshotInv(sh.log.facts, p1.inst.snapshot)
            && (forall j :: j != i ==> Grows(p.shared.log.facts, sh.log.facts, j))
  {
    var x := p.inst.pending[0];
    var f := p.shared.log.facts;
    assert GoodIntent(f, i, x);
    var (p1, ok) := Commit(p, i, x, o);
    var g := p1.shared.log.facts;
    if ok {
      var before, after := p.shared.file.record, NextRecord(p, x, o).value;
      CommitIsGood(p, i, x, o);
      NoteCommitted(p.shared, i, x, after);
      CommittedQueue(f, i, x, before, after, p.inst.pending);
      if !x.barrier { CommittedProof(f, i, x, before, after, p.inst.proof); }
      assert GoodIntent(g, i, x);
    } else if NextRecord(p, x, o).Some? {
      FailedKeeps(p.shared, NextRecord(p, x, o).value, o.write);
      GrowsKeepsInstance(f, g, i, p.inst);
    }
    NoteResolved(p1.shared, i, x, ok);
    PopKeepsQueue(g, i, p.inst.pending);
    HeadGrows(f, g, AfterHead(p, i, o).log.facts, i, x);
    if !x.barrier { ProofOfSame(g, AfterHead(p, i, o).log.facts, i, p1.inst.proof); }
  }

  lemma {:induction false} HeadGrows(f: Facts, g: Facts, h: Facts, i: nat, x: Intent)
    requires forall j :: j != i ==> Grows(f, g, j)
    requires h == g.(resolved := g.resolved + {x.id}) && x.id in g.owner && g.owner[x.id] == i
    ensures forall j :: j != i ==> Grows(f, h, j)
  {
    forall j | j != i ensures Grows(f, h, j) {
      assert Grows(f, g, j);
    }
  }

  lemma {:induction false} TickKeeps(p: Pair, i: nat, o: Oracle)
    requires PairInv(p, i)
    ensures PairInv(TickStep(p, i, o), i)
    ensures forall j :: j != i ==> Grows(p.shared.log.facts, TickStep(p, i, o).shared.log.facts, j)
  {
    if p.inst.scheduled && p.inst.pending != [] {
      var x, rest := p.inst.pending[0], p.inst.pending[1..];
      var (p1, ok) := Commit(p.(inst := p.inst.(scheduled := false, pending := rest)), i, x, o);
      HeadKeeps(p, i, o);
      var sh := AfterHead(p, i, o);
      assert sh == Note(p1.shared, Resolved(i, x.id, ok));
      if !ok {
        DropAll(sh, i, rest);
        DropGrows(p.shared.log.facts, sh, i, rest);
      }
    }
  }

  lemma {:induction false} ResolveAllResolves(sh: Shared, i: nat, xs: seq<Intent>)
    ensures ResolveAll(sh, i, xs).log.facts.resolved == sh.log.facts.resolved + Ids(xs)
  {
    if xs != [] {
      var n := |xs| - 1;
      ResolveAllResolves(sh, i, xs[..n]);
      assert xs == xs[..n] + [xs[n]];
      assert Ids(xs) == Ids(xs[..n]) + {xs[n].id};
    }
  }

  /** An accepted intent resolves what it supersedes. */
  lemma {:induction false} PushResolves(p: Pair, i: nat, a: Action)
    requires a.Enqueue? && p.inst.snapshot.Some?
    ensures forall x :: x in p.inst.pending && Superseded(x, a.subject) ==> x.id in Push(p, i, a).shared.log.facts.resolved
  {
    var dropped := Select(p.inst.pending, a.subject, true);
    ResolveAllResolves(p.shared, i, dropped);
    assert Push(p, i, a).shared.log.facts.resolved == p.shared.log.facts.resolved + Ids(dropped);
  }

  lemma {:induction false} RebuildResolves(p: Pair, i: nat, o: Oracle)
    ensures Ids(p.inst.pending) <= RebuildStep(p, i, o).shared.log.facts.resolved
  {
    ResolveAllResolves(p.shared, i, p.inst.pending);
  }

  /** A tick resolves the head; the rest stays pending if it committed, and is resolved with it if it did not. */
  lemma {:induction false} TickFate(p: Pair, i: nat, o: Oracle)
    requires p.inst.scheduled && p.inst.pending != []
    ensures var ok := TickCommits(p, i, o);
            var r := TickStep(p, i, o);
            && p.inst.pending[0].id in r.shared.log.facts.resolved
            && r.inst.pending == (if ok then p.inst.pending[1..] else [])
            && (!ok ==> r.inst.needsRefresh && r.inst.proof == [] && Ids(p.inst.pending) <= r.shared.log.facts.resolved)
  {
    var x, rest := p.inst.pending[0], p.inst.pending[1..];
    var (p1, ok) := Commit(p.(inst := p.inst.(scheduled := false, pending := rest)), i, x, o);
    var sh := Note(p1.shared, Resolved(i, x.id, ok));
    if !ok {
      ResolveAllResolves(sh, i, rest);
      assert p.inst.pending == [x] + rest;
    }
  }

  /** Whether the head of a scheduled queue commits. */
  ghost predicate TickCommits(p: Pair, i: nat, o: Oracle)
    requires p.inst.pending != []
  {
    Commit(p.(inst := p.inst.(scheduled := false, pending := p.inst.pending[1..])), i, p.inst.pending[0], o).1
  }

  lemma {:induction false} DropGrows(f: Facts, sh: Shared, i: nat, pending: seq<Intent>)
    requires SharedInv(sh) && QueueInv(sh.log.facts, i, pending)
    requires forall j :: j != i ==> Grows(f, sh.log.facts, j)
    ensures forall j :: j != i ==> Grows(f, ResolveAll(sh, i, pending).log.facts, j)
  {
    DropAll(sh, i, pending);
    var g, h := sh.log.facts, ResolveAll(sh, i, pending).log.facts;
    forall id | id in Ids(pending) ensures id in g.owner && g.owner[id] == i {
      var x :| x in pending && x.id == id;
      assert GoodIntent(g, i, x);
    }
    forall j | j != i ensures Grows(f, h, j) {
      assert Grows(f, g, j);
    }
  }

  lemma {:induction false} RebuildKeeps(p: Pair, i: nat, o: Oracle)
    requires PairInv(p, i)
    ensures PairInv(RebuildStep(p, i, o), i)
    ensures forall j :: j != i ==> Grows(p.shared.log.facts, RebuildStep(p, i, o).shared.log.facts, j)
  {
    DropAll(p.shared, i, p.inst.pending);
    var p1 := Pair(ResolveAll(p.shared, i, p.inst.pending), p.inst.(pending := [], proof := []));
    forall j | j != i ensures Grows(p.shared.log.facts, p.shared.log.facts, j) {}
    DropGrows(p.shared.log.facts, p.shared, i, p.inst.pending);
    if o.locked {
      FoundKeeps(p1, i, o);
      GrowsTrans(p.shared.log.facts, p1.shared.log.facts, Found(p1, o).shared.log.facts, i);
    }
  }

  lemma {:induction false} GrowsTrans(f: Facts, g: Facts, h: Facts, i: nat)
    requires forall j :: j != i ==> Grows(f, g, j)
    requires forall j :: j != i ==> Grows(g, h, j)
    ensures forall j :: j != i ==> Grows(f, h, j)
  {
    forall j | j != i ensures Grows(f, h, j) {
      assert Grows(f, g, j) && Grows(g, h, j);
    }
  }

  lemma {:induction false} EnqueueKeeps(p: Pair, i: nat, a: Action, o: Oracle)
    requires PairInv(p, i) && a.Enqueue?
    ensures PairInv(EnqueueStep(p, i, a, o), i)
    ensures forall j :: j != i ==> Grows(p.shared.log.facts, EnqueueStep(p, i, a, o).shared.log.facts, j)
  {
    if p.inst.snapshot.Some? && !p.inst.needsRefresh {
      PushKeeps(p, i, a);
    } else {
      ReadKeeps(p, i, o);
      var (p1, found) := ReadRecord(p, o);
      if found {
        PushKeeps(p1, i, a);
        GrowsTrans(p.shared.log.facts, p1.shared.log.facts, Push(p1, i, a).shared.log.facts, i);
      }
    }
  }

  lemma {:induction false} StepOneKeeps(p: Pair, i: nat, a: Action, o: Oracle)
    requires PairInv(p, i)
    ensures PairInv(StepOne(p, i, a, o), i)
    ensures forall j :: j != i ==> Grows(p.shared.log.facts, StepOne(p, i, a, o).shared.log.facts, j)
  {
    match a
    case Read => ReadKeeps(p, i, o);
    case Enqueue(_, _, _) => EnqueueKeeps(p, i, a, o);
    case Tick => TickKeeps(p, i, o);
    case Rebuild => RebuildKeeps(p, i, o);
  }

  lemma {:induction false} StepKeeps(s: System, i: nat, a: Action, o: Oracle)
    requires Inv(s)
    ensures Inv(Step(s, i, a, o))
  {
    if i < |s.instances| {
      var s' := Step(s, i, a, o);
      var f, g := s.shared.log.facts, s'.shared.log.facts;
      StepOneKeeps(Pair(s.shared, s.instances[i]), i, a, o);
      forall j | 0 <= j < |s'.instances| ensures InstInv(g, j, s'.instances[j]) {
        if j != i { GrowsKeepsInstance(f, g, j, s.instances[j]); }
      }
      forall id | id in g.owner ensures g.owner[id] < |s'.instances| {
        if g.owner[id] != i { assert Grows(f, g, g.owner[id]); }
      }
    }
  }

  // ---------- Runs ----------

  datatype Event = Event(instance: nat, action: Action, oracle: Oracle)

  const NewInstance := Instance(None, [], false, [], false)

  /** Any content may be on disk when the instances start; a record there opens the log. */
  ghost function Init(file: Content, instances: nat): System {
    var log := Log([], NoFacts());
    System(Shared(file, if file.Stored? then file.record.epoch + 1 else 0,
                  if file.Stored? then log.Append(Founded(file.record)) else log),
           seq(instances, k => NewInstance))
  }

  ghost function Run(s: System, es: seq<Event>): System {
    if es == [] then s else
    var n := |es| - 1;
    Step(Run(s, es[..n]), es[n].instance, es[n].action, es[n].oracle)
  }

  lemma {:induction false} InitInv(file: Content, instances: nat)
    ensures Inv(Init(file, instances))
  {
    if file.Stored? { AppendFacts(Log([], NoFacts()), Founded(file.record)); }
  }

  lemma {:induction false} RunInv(s: System, es: seq<Event>)
    requires Inv(s)
    ensures Inv(Run(s, es))
  {
    if es != [] {
      var n := |es| - 1;
      RunInv(s, es[..n]);
      StepKeeps(Run(s, es[..n]), es[n].instance, es[n].action, es[n].oracle);
    }
  }
}
