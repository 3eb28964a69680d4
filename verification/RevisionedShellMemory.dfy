/**
 The shell memory class with its fields and loops, one method per synchronous
 operation. Every public operation keeps the invariant that ties the queue, the
 proof and the snapshot to the log of the file they share, so that whatever any
 number of objects on one file do, in any order, its log loses no update.
 */
module RevisionedShellMemory {
  import opened Wrappers
  import S = ShellMemory
  import R = ShellMemoryRuns

  /** The record file with the identities handed out so far and the last record on it; the log is ghost. */
  class RecordFile {
    var content: S.Content
    var epochs: nat
    var nextId: nat
    var last: Option<S.Record>
    ghost var log: S.Log

    ghost function Model(): S.Shared
      reads this
    {
      S.Shared(content, epochs, log)
    }

    ghost predicate Valid()
      reads this
    {
      nextId == log.facts.next && last == log.facts.last
    }

    constructor (initial: S.Content)
      ensures Valid() && Model() == S.Init(initial, 0).shared
    {
      content, nextId := initial, 0;
      last := if initial.Stored? then Some(initial.record) else None;
      epochs := if initial.Stored? then initial.record.epoch + 1 else 0;
      log := S.Init(initial, 0).shared.log;
    }
  }

  class Memory {
    const instance: nat
    const disk: RecordFile
    var snapshot: Option<S.Record>
    var pending: seq<S.Intent>
    var scheduled: bool
    var proof: seq<S.Link>
    var needsRefresh: bool

    ghost function Fields(): S.Instance
      reads this
    {
      S.Instance(snapshot, pending, scheduled, proof, needsRefresh)
    }

    ghost function Model(): S.Pair
      reads this, disk
    {
      S.Pair(disk.Model(), Fields())
    }

    ghost predicate Valid()
      reads this, disk
    {
      disk.Valid() && S.PairInv(Model(), instance)
    }

    /** The ids whose promises have been resolved. */
    ghost function ResolvedIds(): set<nat>
      reads disk
    {
      disk.log.facts.resolved
    }

    constructor (instance: nat, disk: RecordFile)
      requires disk.Valid() && S.PairInv(S.Pair(disk.Model(), S.NewInstance), instance)
      ensures this.instance == instance && this.disk == disk
      ensures Valid() && Fields() == S.NewInstance
    {
      this.instance, this.disk := instance, disk;
      snapshot, pending, scheduled, proof, needsRefresh := None, [], false, [], false;
    }

    /** Found a new epoch, as the first read and the rebuild do. */
    method WriteFirst(o: S.Oracle) returns (ok: bool)
      requires disk.Valid()
      modifies this`snapshot, disk
      ensures disk.Valid() && Model() == S.Found(old(Model()), o) && ok == o.write.Wrote?
    {
      var first := S.Record(disk.epochs, 0, o.initial);
      disk.epochs := disk.epochs + 1;
      ok := o.write.Wrote?;
      if ok {
        disk.content, disk.last := S.Stored(first), Some(first);
        disk.log := disk.log.Append(S.Founded(first));
        snapshot := Some(first);
      } else {
        FailWrite(first, o.write);
      }
    }

    /** What a write that reported failure leaves. */
    method FailWrite(attempted: S.Record, outcome: S.WriteOutcome)
      requires disk.Valid() && !outcome.Wrote?
      modifies disk
      ensures disk.Valid() && disk.Model() == S.Failed(old(disk.Model()), attempted, outcome)
    {
      match outcome
      case PriorKept =>
      case NothingLeft => disk.content := S.Absent;
      case DamageLeft => disk.content := S.Damaged;
      case AttemptLeft =>
        disk.content, disk.last := S.Stored(attempted), Some(attempted);
        disk.log := disk.log.Append(S.Stranded(attempted));
      case ForeignLeft(foreign) =>
        var record := S.ForeignRecord(foreign, disk.last, disk.epochs);
        disk.content, disk.last := S.Stored(record), Some(record);
        disk.epochs := S.EpochsWith(disk.epochs, record);
        disk.log := disk.log.Append(S.Stranded(record));
    }

    method ReadRecord(o: S.Oracle) returns (found: bool)
      requires Valid()
      modifies this`snapshot, this`needsRefresh, disk
      ensures Valid() && (Model(), found) == S.ReadRecord(old(Model()), o)
      ensures found <==> o.locked && (old(disk.content).Stored? || (old(disk.content).Absent? && o.write.Wrote?))
      ensures found ==> snapshot.Some? && disk.content == S.Stored(snapshot.value) && !needsRefresh
      ensures found && old(disk.content).Absent? ==> snapshot == Some(S.Record(old(disk.epochs), 0, o.initial))
      ensures !old(disk.content).Absent? ==> disk.Model() == old(disk.Model())
      ensures old(disk.content).Damaged? && o.locked ==> snapshot == None
      ensures disk.nextId == old(disk.nextId)
    {
      ghost var next := S.ReadRecord(Model(), o).0;
      if !o.locked { return false; }
      match disk.content {
        case Absent =>
          found := WriteFirst(o);
          if found { needsRefresh := false; }
        case Stored(record) =>
          snapshot, needsRefresh := Some(record), false;
          found := true;
        case Damaged =>
          snapshot, needsRefresh := None, false;
          found := false;
      }
      assert Model() == next;
      S.ReadKeeps(old(Model()), instance, o);
    }

    method ResolveStale(intents: seq<S.Intent>)
      requires disk.Valid()
      modifies disk`log
      ensures disk.Valid() && disk.Model() == S.ResolveAll(old(disk.Model()), instance, intents)
    {
      var k := 0;
      while k < |intents|
        invariant 0 <= k <= |intents| && disk.Valid()
        invariant disk.Model() == S.ResolveAll(old(disk.Model()), instance, intents[..k])
      {
        assert intents[..k + 1][..k] == intents[..k];
        disk.log := disk.log.Append(S.Resolved(instance, intents[k].id, false));
        k := k + 1;
      }
      assert intents[..k] == intents;
    }

    /** Resolve the pending intents a new one on this subject supersedes; the rest are retained. */
    method DropSuperseded(subject: string) returns (retained: seq<S.Intent>)
      requires disk.Valid()
      modifies disk`log
      ensures disk.Valid() && retained == S.Select(pending, subject, false)
      ensures forall x :: x in retained <==> x in pending && (x.barrier || x.subject != subject)
      ensures disk.Model() == S.ResolveAll(old(disk.Model()), instance, S.Select(pending, subject, true))
    {
      var dropped: seq<S.Intent>;
      retained, dropped := [], [];
      var k := 0;
      while k < |pending|
        invariant 0 <= k <= |pending| && disk.Valid() && disk.Model() == old(disk.Model())
        invariant retained == S.Select(pending[..k], subject, false)
        invariant dropped == S.Select(pending[..k], subject, true)
      {
        S.SelectSnoc(pending, k, subject, true);
        S.SelectSnoc(pending, k, subject, false);
        if S.Superseded(pending[k], subject) {
          dropped := dropped + [pending[k]];
        } else {
          retained := retained + [pending[k]];
        }
        k := k + 1;
      }
      assert pending[..k] == pending;
      assert dropped == S.Select(pending, subject, true);
      ResolveStale(dropped);
    }

    method Push(subject: string, barrier: bool, update: (S.Payload, nat) -> Option<S.Payload>)
      requires disk.Valid() && snapshot.Some?
      modifies this`pending, this`scheduled, disk
      ensures disk.Valid()
      ensures Model() == S.Push(old(Model()), instance, S.Enqueue(subject, barrier, update))
      ensures scheduled && disk.nextId == old(disk.nextId) + 1
      ensures pending == S.Select(old(pending), subject, false)
                         + [S.Intent(old(disk.nextId), snapshot.value.epoch, snapshot.value.revision, subject, barrier, update)]
      ensures forall x :: x in pending[..|pending| - 1] <==> x in old(pending) && (x.barrier || x.subject != subject)
      ensures forall x :: x in old(pending) && !x.barrier && x.subject == subject ==> x.id in ResolvedIds()
    {
      S.PushResolves(Model(), instance, S.Enqueue(subject, barrier, update));
      var retained := DropSuperseded(subject);
      var base := snapshot.value;
      pending := retained + [S.Intent(disk.nextId, base.epoch, base.revision, subject, barrier, update)];
      disk.log := disk.log.Append(S.Enqueued(instance, disk.nextId));
      disk.nextId := disk.nextId + 1;
      scheduled := true;
      assert pending[..|pending| - 1] == retained;
    }

    /** Accepted unless no record can be read; what the new intent supersedes is resolved, all else stays pending before it. */
    method Enqueue(subject: string, barrier: bool, update: (S.Payload, nat) -> Option<S.Payload>, o: S.Oracle) returns (accepted: bool)
      requires Valid()
      modifies this, disk
      ensures Valid() && Model() == S.EnqueueStep(old(Model()), instance, S.Enqueue(subject, barrier, update), o)
      ensures accepted <==> (old(snapshot).Some? && !old(needsRefresh))
                            || (o.locked && (old(disk.content).Stored? || (old(disk.content).Absent? && o.write.Wrote?)))
      ensures !accepted ==> pending == old(pending) && disk.nextId == old(disk.nextId)
      ensures accepted ==>
                && snapshot.Some? && scheduled && disk.nextId == old(disk.nextId) + 1
                && pending == S.Select(old(pending), subject, false)
                              + [S.Intent(old(disk.nextId), snapshot.value.epoch, snapshot.value.revision, subject, barrier, update)]
                && (forall x :: x in pending[..|pending| - 1] <==> x in old(pending) && (x.barrier || x.subject != subject))
                && (forall x :: x in old(pending) && !x.barrier && x.subject == subject ==> x.id in ResolvedIds())
    {
      ghost var next := S.EnqueueStep(Model(), instance, S.Enqueue(subject, barrier, update), o);
      if snapshot.None? || needsRefresh {
        accepted := ReadRecord(o);
        if !accepted { return; }
      }
      accepted := true;
      Push(subject, barrier, update);
      assert Model() == next;
      S.EnqueueKeeps(old(Model()), instance, S.Enqueue(subject, barrier, update), o);
    }

    method ExpectedRevision(epoch: nat, base: nat) returns (expected: nat)
      ensures expected == S.Expected(proof, epoch, base)
    {
      expected := base;
      var k := 0;
      while k < |proof|
        invariant 0 <= k <= |proof| && expected == S.Expected(proof[..k], epoch, base)
      {
        assert proof[..k + 1][..k] == proof[..k];
        if proof[k].epoch == epoch && proof[k].from == expected { expected := proof[k].to; }
        k := k + 1;
      }
      assert proof[..k] == proof;
    }

    method Commit(intent: S.Intent, o: S.Oracle) returns (ok: bool)
      requires disk.Valid()
      modifies this`snapshot, this`proof, disk
      ensures disk.Valid() && (Model(), ok) == S.Commit(old(Model()), instance, intent, o)
      ensures ok <==> S.NextRecord(old(Model()), intent, o).Some? && o.write.Wrote?
      ensures ok ==>
                && old(disk.content).Stored? && snapshot.Some? && disk.content == S.Stored(snapshot.value)
                && snapshot.value.epoch == old(disk.content).record.epoch == intent.epoch
                && snapshot.value.revision == old(disk.content).record.revision + 1
                && Some(snapshot.value.payload) == intent.update(old(disk.content).record.payload, snapshot.value.revision)
                && disk.log == old(disk.log).Append(S.Committed(instance, intent, old(disk.content).record, snapshot.value))
      ensures !ok ==> snapshot == old(snapshot) && proof == old(proof)
      ensures S.NextRecord(old(Model()), intent, o).None? ==> disk.Model() == old(disk.Model())
    {
      if !o.valid { return false; }
      var expected := ExpectedRevision(intent.epoch, intent.base);
      if !o.locked || !disk.content.Stored? { return false; }
      var loaded := disk.content.record;
      if loaded.epoch != intent.epoch || loaded.revision != expected { return false; }
      if !o.stillValid || loaded.revision == S.MAX_SAFE_INTEGER { return false; }
      var payload := intent.update(loaded.payload, loaded.revision + 1);
      if payload.None? { return false; }
      var next := S.Record(loaded.epoch, loaded.revision + 1, payload.value);
      ok := o.write.Wrote?;
      if !ok {
        FailWrite(next, o.write);
      } else {
        disk.content, disk.last := S.Stored(next), Some(next);
        disk.log := disk.log.Append(S.Committed(instance, intent, loaded, next));
        snapshot := Some(next);
        if !intent.barrier { proof := proof + [S.Link(next.epoch, loaded.revision, next.revision)]; }
      }
    }

    /** The scheduled microtask: its result is that of the head of the queue, if there was one. */
    method Tick(o: S.Oracle) returns (result: Option<bool>)
      requires Valid()
      modifies this, disk
      ensures Valid() && Model() == S.TickStep(old(Model()), instance, o)
      ensures result.Some? <==> old(scheduled) && old(pending) != []
      ensures result.None? ==> pending == old(pending) && disk.Model() == old(disk.Model())
      ensures result.Some? ==> result.value == S.TickCommits(old(Model()), instance, o) && old(pending)[0].id in ResolvedIds()
      ensures result == Some(true) ==>
                && pending == old(pending)[1..] && scheduled == (pending != [])
                && (old(pending)[0].barrier || pending == [] ==> proof == [])
      ensures result == Some(false) ==> pending == [] && proof == [] && needsRefresh && S.Ids(old(pending)) <= ResolvedIds()
    {
      ghost var next := S.TickStep(Model(), instance, o);
      S.TickKeeps(Model(), instance, o);
      if !scheduled { return None; }
      if pending == [] {
        scheduled, proof := false, [];
        assert Model() == next;
        return None;
      }
      S.TickFate(Model(), instance, o);
      scheduled := false;
      var intent := pending[0];
      pending := pending[1..];
      var ok := Commit(intent, o);
      disk.log := disk.log.Append(S.Resolved(instance, intent.id, ok));
      if !ok {
        ResolveStale(pending);
        pending, proof, needsRefresh := [], [], true;
      } else if intent.barrier {
        proof := [];
      }
      if pending != [] { scheduled := true; } else { proof := []; }
      assert Model() == next;
      result := Some(ok);
    }

    /** Everything pending is resolved; a new epoch is founded if the lock is had and the write succeeds. */
    method Rebuild(o: S.Oracle) returns (ok: bool)
      requires Valid()
      modifies this, disk
      ensures Valid() && Model() == S.RebuildStep(old(Model()), instance, o)
      ensures ok <==> o.locked && o.write.Wrote?
      ensures pending == [] && proof == [] && S.Ids(old(pending)) <= ResolvedIds()
      ensures ok ==> !needsRefresh && snapshot == Some(S.Record(old(disk.epochs), 0, o.initial)) && disk.content == S.Stored(snapshot.value)
      ensures !ok ==> snapshot == old(snapshot)
      ensures !ok && o.locked ==> needsRefresh
      ensures !o.locked ==> disk.content == old(disk.content)
    {
      ghost var next := S.RebuildStep(Model(), instance, o);
      S.RebuildKeeps(Model(), instance, o);
      S.RebuildResolves(Model(), instance, o);
      ResolveStale(pending);
      pending, proof := [], [];
      ok := false;
      if o.locked {
        ok := WriteFirst(o);
        needsRefresh := !ok;
      }
      assert Model() == next;
    }

    /** Whatever is asked of the object next. */
    method Handle(a: S.Action, o: S.Oracle)
      requires Valid()
      modifies this, disk
      ensures Valid() && Model() == S.StepOne(old(Model()), instance, a, o)
    {
      match a {
        case Read => var _ := ReadRecord(o);
        case Enqueue(subject, barrier, update) => var _ := Enqueue(subject, barrier, update, o);
        case Tick => var _ := Tick(o);
        case Rebuild => var _ := Rebuild(o);
      }
    }
  }

  // ---------- Any number of objects on one file ----------

  /** The objects share the file and are numbered as they stand, and together they are the system s. */
  ghost predicate Stand(disk: RecordFile, ms: seq<Memory>, s: S.System)
    reads disk, ms
  {
    && disk.Valid() && disk.Model() == s.shared && |ms| == |s.instances|
    && (forall k :: 0 <= k < |ms| ==> ms[k].disk == disk && ms[k].instance == k && ms[k].Fields() == s.instances[k])
    && (forall j, k :: 0 <= j < k < |ms| ==> ms[j] != ms[k])
  }

  method HandleOne(disk: RecordFile, ms: seq<Memory>, e: S.Event, ghost s: S.System)
    requires Stand(disk, ms, s) && S.Inv(s)
    modifies disk, ms
    ensures Stand(disk, ms, S.Step(s, e.instance, e.action, e.oracle))
  {
    if e.instance < |ms| {
      var m := ms[e.instance];
      assert S.InstInv(s.shared.log.facts, e.instance, s.instances[e.instance]);
      m.Handle(e.action, e.oracle);
    }
  }

  method Create(initial: S.Content, count: nat) returns (disk: RecordFile, ms: seq<Memory>)
    ensures fresh(disk) && (forall k :: 0 <= k < |ms| ==> fresh(ms[k]))
    ensures Stand(disk, ms, S.Init(initial, count))
  {
    ghost var s := S.Init(initial, count);
    S.InitInv(initial, count);
    disk := new RecordFile(initial);
    ms := [];
    for i := 0 to count
      invariant |ms| == i && disk.Valid() && disk.Model() == s.shared && fresh(disk)
      invariant forall k :: 0 <= k < i ==> fresh(ms[k]) && ms[k].disk == disk && ms[k].instance == k && ms[k].Fields() == S.NewInstance
      invariant forall j, k :: 0 <= j < k < i ==> ms[j] != ms[k]
    {
      assert S.InstInv(s.shared.log.facts, i, s.instances[i]);
      var m := new Memory(i, disk);
      ms := ms + [m];
    }
  }

  /** New objects on one file handling any events in any order: no update is lost, fences stand, no promise is resolved twice. */
  method Serve(initial: S.Content, count: nat, es: seq<S.Event>) returns (disk: RecordFile, ms: seq<Memory>)
    ensures Stand(disk, ms, S.Run(S.Init(initial, count), es))
    ensures R.Kept(disk.log.effects)
  {
    ghost var s := S.Init(initial, count);
    S.InitInv(initial, count);
    disk, ms := Create(initial, count);
    for i := 0 to |es|
      invariant fresh(disk) && (forall k :: 0 <= k < |ms| ==> fresh(ms[k]))
      invariant s == S.Run(S.Init(initial, count), es[..i]) && S.Inv(s) && Stand(disk, ms, s)
    {
      HandleOne(disk, ms, es[i], s);
      S.StepKeeps(s, es[i].instance, es[i].action, es[i].oracle);
      s := S.Step(s, es[i].instance, es[i].action, es[i].oracle);
      assert es[..i + 1][..i] == es[..i];
    }
    assert es[..|es|] == es;
    R.GoodLogIsKept(disk.log.effects);
  }
}
