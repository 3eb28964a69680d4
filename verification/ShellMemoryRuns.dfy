/**
 What the shell memory promises over every run of any number of instances, stated
 about the log of effects itself: no lost update, the barrier's fence, and the fate
 of every intent.
 */
module ShellMemoryRuns {
  import opened Wrappers
  import opened ShellMemory

  // ---------- What a good log means, effect by effect ----------

  predicate Publishes(e: Effect) {
    e.Founded? || e.Committed? || e.Stranded?
  }

  function Publication(e: Effect): Record
    requires Publishes(e)
  {
    if e.Committed? then e.after else e.record
  }

  /** The record `r` was published at `k` and nothing was published between `k` and `n`. */
  ghost predicate LastPublishedAt(effects: seq<Effect>, k: int, n: int, r: Record) {
    && 0 <= k < n <= |effects| && Publishes(effects[k]) && Publication(effects[k]) == r
    && forall j :: k < j < n ==> !Publishes(effects[j])
  }

  ghost predicate CommittedBy(e: Effect, i: nat, epoch: nat, revision: nat) {
    e.Committed? && e.instance == i && e.after.epoch == epoch && e.after.revision == revision
  }

  /** Instance `i` committed that revision before position `k`. */
  ghost predicate WroteBefore(effects: seq<Effect>, k: int, i: nat, epoch: nat, revision: nat) {
    exists j :: 0 <= j < k <= |effects| && CommittedBy(effects[j], i, epoch, revision)
  }

  lemma {:induction false} LastMeans(effects: seq<Effect>)
    requires FactsOf(effects).last.Some?
    ensures exists k :: LastPublishedAt(effects, k, |effects|, FactsOf(effects).last.value)
  {
    var n := |effects| - 1;
    var front := effects[..n];
    var r := FactsOf(effects).last.value;
    if Publishes(effects[n]) {
      assert LastPublishedAt(effects, n, |effects|, r);
    } else {
      LastMeans(front);
      var k :| LastPublishedAt(front, k, |front|, r);
      assert forall j :: 0 <= j < n ==> front[j] == effects[j];
      assert LastPublishedAt(effects, k, |effects|, r);
    }
  }

  lemma {:induction false} OwnMeans(effects: seq<Effect>, i: nat, epoch: nat, revision: nat)
    requires (i, epoch, revision) in FactsOf(effects).own
    ensures exists j :: 0 <= j < |effects| && CommittedBy(effects[j], i, epoch, revision)
  {
    var n := |effects| - 1;
    if !CommittedBy(effects[n], i, epoch, revision) {
      OwnMeans(effects[..n], i, epoch, revision);
      var j :| 0 <= j < n && CommittedBy(effects[..n][j], i, epoch, revision);
      assert CommittedBy(effects[j], i, epoch, revision);
    }
  }

  lemma {:induction false} PrefixGood(effects: seq<Effect>, k: nat)
    requires FactsOf(effects).good && k <= |effects|
    ensures FactsOf(effects[..k]).good
    decreases |effects|
  {
    if k < |effects| {
      var front := effects[..|effects| - 1];
      PrefixGood(front, k);
      assert front[..k] == effects[..k];
    } else {
      assert effects[..k] == effects;
    }
  }

  lemma {:induction false} GoodAt(effects: seq<Effect>, k: nat)
    requires FactsOf(effects).good && k < |effects|
    ensures FactsOf(effects[..k]).good
    ensures After(FactsOf(effects[..k]), effects[k]).good
  {
    PrefixGood(effects, k);
    PrefixGood(effects, k + 1);
    assert effects[..k + 1][..k] == effects[..k];
  }

  /** Versions that got onto the disk strictly increase, so no revision of an epoch is there twice. */
  lemma {:induction false} PublicationsIncrease(effects: seq<Effect>, j: nat)
    requires FactsOf(effects).good && j < |effects| && Publishes(effects[j])
    ensures FactsOf(effects).last.Some?
    ensures var last := FactsOf(effects).last.value; last == Publication(effects[j]) || Precedes(Publication(effects[j]), last)
    ensures forall k :: j < k < |effects| && Publishes(effects[k]) ==> Precedes(Publication(effects[j]), Publication(effects[k]))
  {
    var n := |effects| - 1;
    if j < n {
      var front := effects[..n];
      PrefixGood(effects, n);
      PublicationsIncrease(front, j);
      forall k | j < k < |effects| && Publishes(effects[k])
        ensures Precedes(Publication(effects[j]), Publication(effects[k]))
      {
        if k < n { assert front[k] == effects[k]; }
      }
    }
  }

  ghost function EffectsOf(file: Content, instances: nat, es: seq<Event>): (effects: seq<Effect>)
    ensures FactsOf(effects).good
  {
    InitInv(file, instances);
    RunInv(Init(file, instances), es);
    Run(Init(file, instances), es).shared.log.effects
  }

  /**
   A commit applies its own update to the record that got onto the disk last, by whichever
   instance and even by a write that reported failure, and every revision between its base
   and that record was committed by the same instance and put there by no other.
   */
  ghost predicate BuildsOnLast(effects: seq<Effect>, k: nat)
    requires k < |effects| && effects[k].Committed?
  {
    var c := effects[k];
    && c.after.epoch == c.before.epoch == c.intent.epoch
    && c.after.revision == c.before.revision + 1
    && c.intent.update(c.before.payload, c.after.revision) == Some(c.after.payload)
    && (exists j :: LastPublishedAt(effects, j, k, c.before))
    && (forall v :: c.intent.base < v <= c.before.revision ==>
          WroteBefore(effects, k, c.instance, c.before.epoch, v))
    && (forall j :: 0 <= j < k && Publishes(effects[j]) && Publication(effects[j]).epoch == c.before.epoch &&
                    c.intent.base < Publication(effects[j]).revision <= c.before.revision ==>
          effects[j].Committed? && effects[j].instance == c.instance)
  }

  lemma {:induction false} GoodBuildsOnLast(effects: seq<Effect>, k: nat)
    requires FactsOf(effects).good && k < |effects| && effects[k].Committed?
    ensures BuildsOnLast(effects, k)
  {
    var c := effects[k];
    var front := effects[..k];
    GoodAt(effects, k);
    LastMeans(front);
    var j :| LastPublishedAt(front, j, k, c.before);
    assert LastPublishedAt(effects, j, k, c.before);
    forall v | c.intent.base < v <= c.before.revision
      ensures WroteBefore(effects, k, c.instance, c.before.epoch, v)
    {
      OwnMeans(front, c.instance, c.before.epoch, v);
      var m :| 0 <= m < k && CommittedBy(front[m], c.instance, c.before.epoch, v);
      assert CommittedBy(effects[m], c.instance, c.before.epoch, v);
    }
    forall j | 0 <= j < k && Publishes(effects[j]) && Publication(effects[j]).epoch == c.before.epoch &&
               c.intent.base < Publication(effects[j]).revision <= c.before.revision
      ensures effects[j].Committed? && effects[j].instance == c.instance
    {
      OneRecordPerRevision(effects, c.instance, k, j);
    }
  }

  /** No lost update, in any run. */
  lemma {:induction false} NoLostUpdate(file: Content, instances: nat, es: seq<Event>, k: nat)
    requires k < |EffectsOf(file, instances, es)| && EffectsOf(file, instances, es)[k].Committed?
    ensures BuildsOnLast(EffectsOf(file, instances, es), k)
  {
    GoodBuildsOnLast(EffectsOf(file, instances, es), k);
  }

  lemma {:induction false} OneRecordPerRevision(effects: seq<Effect>, i: nat, k: nat, j: nat)
    requires FactsOf(effects).good && j < k < |effects| && Publishes(effects[j])
    requires (i, Publication(effects[j]).epoch, Publication(effects[j]).revision) in FactsOf(effects[..k]).own
    ensures effects[j].Committed? && effects[j].instance == i
  {
    var epoch, revision := Publication(effects[j]).epoch, Publication(effects[j]).revision;
    OwnMeans(effects[..k], i, epoch, revision);
    var m :| 0 <= m < k && CommittedBy(effects[..k][m], i, epoch, revision);
    assert effects[m] == effects[..k][m];
    if m < j { PublicationsIncrease(effects, m); }
    if j < m { PublicationsIncrease(effects, j); }
  }

  lemma {:induction false} NextExceeds(effects: seq<Effect>, a: nat)
    requires FactsOf(effects).good && a < |effects| && effects[a].Enqueued?
    ensures effects[a].id < FactsOf(effects).next
  {
    var n := |effects| - 1;
    if a < n {
      PrefixGood(effects, n);
      NextExceeds(effects[..n], a);
    }
  }

  lemma {:induction false} FenceStands(effects: seq<Effect>, a: nat, b: nat)
    requires FactsOf(effects).good && a < b < |effects|
    requires effects[a].Enqueued? && effects[b].Committed? && effects[b].intent.barrier
    ensures effects[b].instance in FactsOf(effects).fences
    ensures effects[a].id < FactsOf(effects).fences[effects[b].instance].bound
  {
    var n := |effects| - 1;
    PrefixGood(effects, n);
    NextExceeds(effects[..n], a);
    if b < n { FenceStands(effects[..n], a, b); }
  }

  /** The effects at a, b and c: an intent enqueued, then a barrier committed, then another commit, all of one instance. */
  ghost predicate AcrossBarrier(effects: seq<Effect>, a: nat, b: nat, c: nat) {
    && a < b < c < |effects|
    && effects[a].Enqueued? && effects[b].Committed? && effects[b].intent.barrier && effects[c].Committed?
    && effects[a].instance == effects[b].instance == effects[c].instance
  }

  lemma {:induction false} GoodFence(effects: seq<Effect>, a: nat, b: nat, c: nat)
    requires FactsOf(effects).good && AcrossBarrier(effects, a, b, c)
    ensures effects[c].intent.id != effects[a].id
  {
    GoodAt(effects, c);
    FenceStands(effects[..c], a, b);
  }

  /** After a barrier commits, nothing enqueued on that instance before can ever commit. */
  lemma {:induction false} BarrierFence(file: Content, instances: nat, es: seq<Event>, a: nat, b: nat, c: nat)
    requires AcrossBarrier(EffectsOf(file, instances, es), a, b, c)
    ensures EffectsOf(file, instances, es)[c].intent.id != EffectsOf(file, instances, es)[a].id
  {
    GoodFence(EffectsOf(file, instances, es), a, b, c);
  }

  lemma {:induction false} ResolvedMeans(effects: seq<Effect>, id: nat)
    ensures id in FactsOf(effects).resolved <==> exists k :: 0 <= k < |effects| && effects[k].Resolved? && effects[k].id == id
  {
    if effects != [] {
      var n := |effects| - 1;
      var front := effects[..n];
      ResolvedMeans(front, id);
      if id in FactsOf(front).resolved {
        var k :| 0 <= k < |front| && front[k].Resolved? && front[k].id == id;
        assert effects[k] == front[k];
      }
      if k :| 0 <= k < |effects| && effects[k].Resolved? && effects[k].id == id {
        if k < n { assert front[k] == effects[k]; }
      }
    }
  }

  lemma {:induction false} OwnerMeans(effects: seq<Effect>, a: nat)
    requires FactsOf(effects).good && a < |effects| && effects[a].Enqueued?
    ensures var f := FactsOf(effects); effects[a].id in f.owner && f.owner[effects[a].id] == effects[a].instance
  {
    var n := |effects| - 1;
    if a < n {
      PrefixGood(effects, n);
      OwnerMeans(effects[..n], a);
      NextExceeds(effects[..n], a);
    }
  }

  lemma {:induction false} GoodResolvesOnce(effects: seq<Effect>, j: nat, k: nat)
    requires FactsOf(effects).good && j < k < |effects| && effects[j].Resolved? && effects[k].Resolved?
    ensures effects[j].id != effects[k].id
  {
    GoodAt(effects, k);
    ResolvedMeans(effects[..k], effects[j].id);
    assert effects[..k][j] == effects[j];
  }

  /** No intent is resolved twice. */
  lemma {:induction false} ResolvedAtMostOnce(file: Content, instances: nat, es: seq<Event>, j: nat, k: nat)
    requires j < k < |EffectsOf(file, instances, es)|
    requires EffectsOf(file, instances, es)[j].Resolved? && EffectsOf(file, instances, es)[k].Resolved?
    ensures EffectsOf(file, instances, es)[j].id != EffectsOf(file, instances, es)[k].id
  {
    GoodResolvesOnce(EffectsOf(file, instances, es), j, k);
  }

  /** What every log of any number of instances satisfies: no lost update, fences that stand, one resolution for each intent. */
  ghost predicate Kept(effects: seq<Effect>) {
    && (forall k :: 0 <= k < |effects| && effects[k].Committed? ==> BuildsOnLast(effects, k))
    && (forall a: nat, b: nat, c: nat :: AcrossBarrier(effects, a, b, c) ==> effects[c].intent.id != effects[a].id)
    && (forall j, k :: 0 <= j < k < |effects| && effects[j].Resolved? && effects[k].Resolved? ==> effects[j].id != effects[k].id)
  }

  lemma {:induction false} GoodLogIsKept(effects: seq<Effect>)
    requires FactsOf(effects).good
    ensures Kept(effects)
  {
    forall k | 0 <= k < |effects| && effects[k].Committed? ensures BuildsOnLast(effects, k) {
      GoodBuildsOnLast(effects, k);
    }
    forall a: nat, b: nat, c: nat | AcrossBarrier(effects, a, b, c) ensures effects[c].intent.id != effects[a].id {
      GoodFence(effects, a, b, c);
    }
    forall j, k | 0 <= j < k < |effects| && effects[j].Resolved? && effects[k].Resolved? ensures effects[j].id != effects[k].id {
      GoodResolvesOnce(effects, j, k);
    }
  }

  /** Every enqueued intent is resolved or still pending on its instance, never both. */
  lemma {:induction false} ResolvedOrPending(file: Content, instances: nat, es: seq<Event>, a: nat)
    requires a < |EffectsOf(file, instances, es)| && EffectsOf(file, instances, es)[a].Enqueued?
    ensures var effects := EffectsOf(file, instances, es);
            var s := Run(Init(file, instances), es);
            && effects[a].instance < |s.instances|
            && (effects[a].id in Ids(s.instances[effects[a].instance].pending) <==>
                !exists k :: 0 <= k < |effects| && effects[k].Resolved? && effects[k].id == effects[a].id)
  {
    var effects := EffectsOf(file, instances, es);
    InitInv(file, instances);
    RunInv(Init(file, instances), es);
    var s := Run(Init(file, instances), es);
    var f := s.shared.log.facts;
    OwnerMeans(effects, a);
    ResolvedMeans(effects, effects[a].id);
    var i := effects[a].instance;
    assert InstInv(f, i, s.instances[i]);
    if effects[a].id in Ids(s.instances[i].pending) {
      var x :| x in s.instances[i].pending && x.id == effects[a].id;
      assert GoodIntent(f, i, x);
    }
  }

  /** At most one non-barrier intent per subject is pending, and nothing enqueued after it shares its subject. */
  lemma {:induction false} LatestPerSubject(file: Content, instances: nat, es: seq<Event>, i: nat, a: nat, b: nat)
    requires var s := Run(Init(file, instances), es); i < |s.instances| && a < b < |s.instances[i].pending|
    ensures var xs := Run(Init(file, instances), es).instances[i].pending;
            xs[a].id < xs[b].id && (xs[a].barrier || xs[a].subject != xs[b].subject)
  {
    InitInv(file, instances);
    RunInv(Init(file, instances), es);
    var s := Run(Init(file, instances), es);
    assert InstInv(s.shared.log.facts, i, s.instances[i]);
  }

  /** A waiting queue always has a tick scheduled, and any tick of it shortens it. */
  lemma {:induction false} TickShrinks(s: System, i: nat, o: Oracle)
    requires Inv(s) && i < |s.instances| && s.instances[i].pending != []
    ensures s.instances[i].scheduled
    ensures |Step(s, i, Tick, o).instances[i].pending| < |s.instances[i].pending|
  {
    assert InstInv(s.shared.log.facts, i, s.instances[i]);
  }

  /** Ticks of one instance, with what the environment answers to each. */
  ghost function Ticks(i: nat, os: seq<Oracle>): (es: seq<Event>)
    ensures |es| == |os| && forall k :: 0 <= k < |os| ==> es[k] == Event(i, Tick, os[k])
  {
    if os == [] then [] else Ticks(i, os[..|os| - 1]) + [Event(i, Tick, os[|os| - 1])]
  }

  /** So the queue drains after as many ticks as there are pending intents, whatever the environment answers. */
  lemma {:induction false} QueueDrains(file: Content, instances: nat, es: seq<Event>, i: nat, os: seq<Oracle>)
    requires i < |Run(Init(file, instances), es).instances|
    requires |os| >= |Run(Init(file, instances), es).instances[i].pending|
    ensures var s := Run(Run(Init(file, instances), es), Ticks(i, os));
            i < |s.instances| && s.instances[i].pending == []
  {
    InitInv(file, instances);
    RunInv(Init(file, instances), es);
    TicksShrink(Run(Init(file, instances), es), i, os);
  }

  lemma {:induction false} TicksShrink(s: System, i: nat, os: seq<Oracle>)
    requires Inv(s) && i < |s.instances|
    ensures var s' := Run(s, Ticks(i, os));
            && Inv(s') && i < |s'.instances|
            && (s'.instances[i].pending == [] || |s'.instances[i].pending| + |os| <= |s.instances[i].pending|)
  {
    if os != [] {
      var n := |os| - 1;
      TicksShrink(s, i, os[..n]);
      assert Ticks(i, os)[..n] == Ticks(i, os[..n]);
      var s1 := Run(s, Ticks(i, os[..n]));
      StepKeeps(s1, i, Tick, os[n]);
      if s1.instances[i].pending != [] { TickShrinks(s1, i, os[n]); }
    }
  }
}
