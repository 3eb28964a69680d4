/**
 The sidecar lifecycle: generations of a child process, their readiness and
 cleanup promises, and the events that settle them. Timers may fire at any time
 they are armed; `spawn` and `kill` may throw.
 */
module Sidecar {
  import opened Wrappers

  /** Why a generation's cleanup promise was rejected. */
  datatype Cause = UnexpectedExit | KillFailedInFail | KillFailedInStop | CleanupTimedOut

  /** One generation. Its readiness promise is resolved iff `ready`, else rejected iff `failed`. */
  datatype Generation = Generation(
    spawned: bool,
    ready: bool,
    failed: bool,
    exited: bool,
    killRequested: bool,
    stopping: bool,
    settled: bool,
    failure: Option<Cause>)
  {
    predicate Alive() { spawned && !exited }
  }

  /** Generations in launch order, so the position is the generation's identity. */
  datatype Lifecycle = Lifecycle(
    generations: seq<Generation>,
    current: Option<nat>,
    waitingLaunches: seq<nat>,   // starts chained on the cleanup promise of a generation
    stoppingGeneration: Option<nat>,
    stopWaits: map<nat, StopPromise>)
  {
    ghost predicate Valid() {
      && (current.Some? ==> current.value < |generations|)
      && (forall k :: 0 <= k < |waitingLaunches| ==> waitingLaunches[k] < |generations|)
      && (stoppingGeneration.Some? ==> stoppingGeneration.value < |generations| && stoppingGeneration.value in stopWaits)
    }

    function Set(i: nat, g: Generation): Lifecycle
      requires i < |generations|
    {
      this.(generations := generations[i := g])
    }

    /** isCurrent: the candidate is the current generation and is not being stopped. */
    predicate IsCurrent(i: nat)
      requires i < |generations|
    {
      current == Some(i) && !generations[i].stopping
    }
  }

  datatype StopPromise = StoppedNow | OnCleanup(generation: nat)
  datatype StartPromise = OnReadiness(generation: nat) | StartRefused | AfterCleanup(generation: nat)

  const Fresh := Lifecycle([], None, [], None, map[])

  function Settle(g: Generation, cause: Option<Cause>): Generation {
    if g.settled then g else g.(settled := true, failure := cause)
  }

  function Terminate(g: Generation, killThrows: bool, cause: Cause): Generation {
    if g.exited || g.killRequested || !g.spawned then g
    else if killThrows then Settle(g.(killRequested := true), Some(cause))
    else g.(killRequested := true)
  }

  function Fail(l: Lifecycle, i: nat, killThrows: bool): Lifecycle
    requires i < |l.generations|
  {
    if !l.IsCurrent(i) || l.generations[i].failed then l
    else l.Set(i, Terminate(l.generations[i].(failed := true), killThrows, KillFailedInFail))
  }

  function Announce(l: Lifecycle, i: nat): Lifecycle
    requires i < |l.generations|
  {
    if !l.IsCurrent(i) || l.generations[i].failed || l.generations[i].ready then l
    else l.Set(i, l.generations[i].(ready := true))
  }

  /** A generation that was to be waited for has a process that has not exited. */
  predicate ExitUnconfirmed(l: Lifecycle)
    requires l.Valid()
  {
    l.stoppingGeneration.Some? && l.generations[l.stoppingGeneration.value].Alive()
  }

  function Launch(l: Lifecycle, spawnThrows: bool): (Lifecycle, StartPromise)
    requires l.Valid()
  {
    if ExitUnconfirmed(l) then (l, StartRefused) else
    var i := |l.generations|;
    var g := Generation(!spawnThrows, false, spawnThrows, false, false, false, false, None);
    (l.(generations := l.generations + [g], current := Some(i)), OnReadiness(i))
  }

  /** A generation after its stop was asked for, before its exit is waited for. */
  function Stopped(g: Generation, killThrows: bool): Generation {
    Terminate(g.(failed := g.failed || !g.ready, stopping := true), killThrows, KillFailedInStop)
  }

  function StopCurrent(l: Lifecycle, killThrows: bool): (Lifecycle, StopPromise)
    requires l.Valid()
  {
    if l.current.None? then (l, StoppedNow) else
    var i := l.current.value;
    var g := l.generations[i];
    if g.settled && g.failure.Some? then (l, OnCleanup(i)) else
    var g1 := Stopped(g, killThrows);
    if !g1.spawned || g1.exited then
      (l.Set(i, Settle(g1, None)).(current := None), StoppedNow)
    else
      (l.Set(i, g1), OnCleanup(i))
  }

  function Start(l: Lifecycle, killThrows: bool, spawnThrows: bool): (Lifecycle, StartPromise)
    requires l.Valid()
  {
    if l.current.None? then Launch(l, spawnThrows) else
    var i := l.current.value;
    var l1 := StopCurrent(l, killThrows).0;
    if l1.generations[i].settled then
      if l1.generations[i].failure.Some? then (l1, StartRefused) else Launch(l1, spawnThrows)
    else
      (l1.(waitingLaunches := l1.waitingLaunches + [i]), AfterCleanup(i))
  }

  /** Stop and be able to wait for it: until its process has exited, nothing is launched. */
  function StopAndWait(l: Lifecycle, killThrows: bool): (Lifecycle, StopPromise)
    requires l.Valid()
  {
    var previous := if l.current.Some? then l.current else l.stoppingGeneration;
    if previous.None? then (l, StoppedNow)
    else if previous.value in l.stopWaits then (l, l.stopWaits[previous.value])
    else
      var (l1, promise) := StopCurrent(l, killThrows);
      (l1.(stoppingGeneration := previous, stopWaits := l1.stopWaits[previous.value := promise]), promise)
  }

  /** After a stop that is waited for, every launch is refused exactly while that process has not exited. */
  lemma {:induction false} LaunchWaitsForExit(l: Lifecycle, killThrows: bool, spawnThrows: bool)
    requires l.Valid() && l.current.Some? && l.current.value !in l.stopWaits
    ensures var l1 := StopAndWait(l, killThrows).0;
            l1.Valid() && (Launch(l1, spawnThrows) == (l1, StartRefused) <==> l1.generations[l.current.value].Alive())
  {
  }

  /** A start chained on a cleanup promise runs once that promise has resolved. */
  function RunWaitingLaunch(l: Lifecycle, k: nat, spawnThrows: bool): Lifecycle
    requires l.Valid() && k < |l.waitingLaunches|
  {
    var g := l.generations[l.waitingLaunches[k]];
    if !g.settled then l else
    var l1 := l.(waitingLaunches := l.waitingLaunches[..k] + l.waitingLaunches[k + 1..]);
    if g.failure.Some? then l1 else Launch(l1, spawnThrows).0
  }

  /** The exit handler; the flag says whether it reports an unexpected exit. */
  function Exit(l: Lifecycle, i: nat): (Lifecycle, bool)
    requires i < |l.generations|
  {
    var l1 := l.Set(i, l.generations[i].(exited := true));
    if !l.generations[i].stopping then
      var l2 := Fail(l1, i, false);
      (l2.Set(i, Settle(l2.generations[i], Some(UnexpectedExit))), true)
    else
      var g := Settle(l1.generations[i], None);
      (l1.Set(i, g).(current := if l1.current == Some(i) && g.failure.None? then None else l1.current), false)
  }

  function CleanupTimeout(l: Lifecycle, i: nat): Lifecycle
    requires i < |l.generations|
  {
    if !l.generations[i].stopping then l
    else l.Set(i, Settle(l.generations[i], Some(CleanupTimedOut)))
  }

  // ---------- The lifecycle by itself ----------

  datatype Event =
    | StartCalled(killThrows: bool, spawnThrows: bool)
    | StopCalled(killThrows: bool)
    | StopAndWaitCalled(killThrows: bool)
    | CleanupResolves(k: nat, spawnThrows: bool)   // for the k-th start that waits for it
    | PortAnnounced(i: nat)
    | ProcessFails(i: nat, killThrows: bool)
    | ProcessExits(i: nat)
    | TimerFires(i: nat)

  function Step(l: Lifecycle, e: Event): Lifecycle
    requires l.Valid()
  {
    match e
    case StartCalled(killThrows, spawnThrows) => Start(l, killThrows, spawnThrows).0
    case StopCalled(killThrows) => StopCurrent(l, killThrows).0
    case StopAndWaitCalled(killThrows) => StopAndWait(l, killThrows).0
    case CleanupResolves(k, spawnThrows) => if k < |l.waitingLaunches| then RunWaitingLaunch(l, k, spawnThrows) else l
    case PortAnnounced(i) => if i < |l.generations| then Announce(l, i) else l
    case ProcessFails(i, killThrows) => if i < |l.generations| then Fail(l, i, killThrows) else l
    case ProcessExits(i) => if i < |l.generations| && l.generations[i].Alive() then Exit(l, i).0 else l
    case TimerFires(i) => if i < |l.generations| then CleanupTimeout(l, i) else l
  }

  /** A cleanup that resolved leaves no process, and one that is pending has a process to wait for. */
  predicate Sound(g: Generation) {
    && (g.exited ==> g.spawned && g.settled)
    && (g.failure.Some? ==> g.settled)
    && (g.stopping && !g.settled ==> g.spawned)
    && (g.settled && g.failure.None? ==> g.stopping && !g.Alive())
  }

  ghost predicate Inv(l: Lifecycle) {
    && l.Valid()
    && (forall i :: 0 <= i < |l.generations| ==> Sound(l.generations[i]))
    && (forall w :: w in l.waitingLaunches ==> w < |l.generations| && Ending(l.generations[w]))
  }

  predicate Ending(g: Generation) {
    g.stopping || g.failure.Some?
  }

  /** Replacing one generation by a sound one that is ending if the old one was. */
  lemma {:induction false} SetKeepsInv(l: Lifecycle, i: nat, g: Generation, current: Option<nat>)
    requires Inv(l) && i < |l.generations| && Sound(g) && (Ending(l.generations[i]) ==> Ending(g))
    requires current.Some? ==> current.value < |l.generations|
    ensures Inv(l.Set(i, g)) && Inv(l.Set(i, g).(current := current))
  {
  }

  lemma {:induction false} StoppedIsSound(g: Generation, killThrows: bool)
    requires Sound(g) && g.failure.None?
    ensures var g1 := Stopped(g, killThrows);
            && Ending(g1) && g1.spawned == g.spawned && g1.exited == g.exited
            && (if !g1.spawned || g1.exited then Sound(Settle(g1, None)) && Ending(Settle(g1, None)) else Sound(g1))
  {
  }

  lemma {:induction false} StopKeepsInv(l: Lifecycle, killThrows: bool)
    requires Inv(l)
    ensures var (l', p) := StopCurrent(l, killThrows);
            && Inv(l') && l'.waitingLaunches == l.waitingLaunches && |l'.generations| == |l.generations|
            && (l.current.Some? ==> Ending(l'.generations[l.current.value]))
  {
    if l.current.Some? {
      var i := l.current.value;
      var g := l.generations[i];
      if g.failure.None? {
        StoppedIsSound(g, killThrows);
        var g1 := Stopped(g, killThrows);
        SetKeepsInv(l, i, if !g1.spawned || g1.exited then Settle(g1, None) else g1, None);
      }
    }
  }

  lemma {:induction false} StopAndWaitKeepsInv(l: Lifecycle, killThrows: bool)
    requires Inv(l)
    ensures Inv(StopAndWait(l, killThrows).0)
  {
    StopKeepsInv(l, killThrows);
  }

  lemma {:induction false} LaunchKeepsInv(l: Lifecycle, spawnThrows: bool)
    requires Inv(l)
    ensures Inv(Launch(l, spawnThrows).0)
  {
  }

  lemma {:induction false} StartKeepsInv(l: Lifecycle, killThrows: bool, spawnThrows: bool)
    requires Inv(l)
    ensures Inv(Start(l, killThrows, spawnThrows).0)
  {
    var l1 := StopCurrent(l, killThrows).0;
    StopKeepsInv(l, killThrows);
    LaunchKeepsInv(l1, spawnThrows);
  }

  /** The starts that wait without the k-th. */
  function Without(xs: seq<nat>, k: nat): (r: seq<nat>)
    requires k < |xs|
    ensures |r| == |xs| - 1 && forall w :: w in r ==> w in xs
  {
    xs[..k] + xs[k + 1..]
  }

  lemma {:induction false} WaitingLaunchKeepsInv(l: Lifecycle, k: nat, spawnThrows: bool)
    requires Inv(l) && k < |l.waitingLaunches|
    ensures Inv(l.(waitingLaunches := Without(l.waitingLaunches, k))) && Inv(RunWaitingLaunch(l, k, spawnThrows))
  {
    LaunchKeepsInv(l.(waitingLaunches := Without(l.waitingLaunches, k)), spawnThrows);
  }

  lemma {:induction false} AnnounceAndFailKeepInv(l: Lifecycle, i: nat, killThrows: bool)
    requires Inv(l) && i < |l.generations|
    ensures Inv(Announce(l, i)) && Inv(Fail(l, i, killThrows))
  {
    var g := l.generations[i];
    SetKeepsInv(l, i, g.(ready := true), l.current);
    SetKeepsInv(l, i, Terminate(g.(failed := true), killThrows, KillFailedInFail), l.current);
  }

  /** What an exit makes of its generation. */
  function Exited(g: Generation, fails: bool): Generation {
    Settle(g.(exited := true, failed := g.failed || fails), if g.stopping then None else Some(UnexpectedExit))
  }

  lemma {:induction false} ExitIsExited(l: Lifecycle, i: nat)
    requires i < |l.generations|
    ensures var (l', unexpected) := Exit(l, i);
            var g := Exited(l.generations[i], l.IsCurrent(i));
            && unexpected == !l.generations[i].stopping
            && l' == l.Set(i, g).(current := if l.current == Some(i) && g.stopping && g.failure.None? then None else l.current)
  {
  }

  lemma {:induction false} ExitKeepsInv(l: Lifecycle, i: nat)
    requires Inv(l) && i < |l.generations| && l.generations[i].Alive()
    ensures Inv(Exit(l, i).0)
  {
    ExitIsExited(l, i);
    var g := Exited(l.generations[i], l.IsCurrent(i));
    SetKeepsInv(l, i, g, if l.current == Some(i) && g.stopping && g.failure.None? then None else l.current);
  }

  lemma {:induction false} TimeoutKeepsInv(l: Lifecycle, i: nat)
    requires Inv(l) && i < |l.generations|
    ensures Inv(CleanupTimeout(l, i))
  {
    SetKeepsInv(l, i, Settle(l.generations[i], Some(CleanupTimedOut)), l.current);
  }

  lemma {:induction false} StepKeepsInv(l: Lifecycle, e: Event)
    requires Inv(l)
    ensures Inv(Step(l, e))
  {
    match e
    case StartCalled(killThrows, spawnThrows) => StartKeepsInv(l, killThrows, spawnThrows);
    case StopCalled(killThrows) => StopKeepsInv(l, killThrows);
    case StopAndWaitCalled(killThrows) => StopAndWaitKeepsInv(l, killThrows);
    case CleanupResolves(k, spawnThrows) => if k < |l.waitingLaunches| { WaitingLaunchKeepsInv(l, k, spawnThrows); }
    case PortAnnounced(i) => if i < |l.generations| { AnnounceAndFailKeepInv(l, i, false); }
    case ProcessFails(i, killThrows) => if i < |l.generations| { AnnounceAndFailKeepInv(l, i, killThrows); }
    case ProcessExits(i) => if i < |l.generations| && l.generations[i].Alive() { ExitKeepsInv(l, i); }
    case TimerFires(i) => if i < |l.generations| { TimeoutKeepsInv(l, i); }
  }

  ghost function Run(l: Lifecycle, es: seq<Event>): (r: Lifecycle)
    requires Inv(l)
    ensures Inv(r)
  {
    if es == [] then l else
    var before := Run(l, es[..|es| - 1]);
    StepKeepsInv(before, es[|es| - 1]);
    Step(before, es[|es| - 1])
  }

  lemma {:induction false} RunSnoc(l: Lifecycle, es: seq<Event>, e: Event)
    requires Inv(l)
    ensures Run(l, es + [e]) == Step(Run(l, es), e)
  {
    assert (es + [e])[..|es|] == es;
  }

  // ---------- A failed cleanup is final ----------

  /** The current generation's cleanup has failed. */
  predicate Poisoned(l: Lifecycle)
    requires l.Valid()
  {
    l.current.Some? && l.generations[l.current.value].failure.Some?
  }

  /** And every start that still waits, waits for a cleanup that has failed. */
  ghost predicate Closed(l: Lifecycle)
    requires l.Valid()
  {
    Poisoned(l) && forall w :: w in l.waitingLaunches ==> w < |l.generations| && l.generations[w].failure.Some?
  }

  /** A failure settled once stays. */
  lemma {:induction false} FailuresStay(l: Lifecycle, e: Event, i: nat)
    requires Inv(l) && Closed(l) && i < |l.generations| && l.generations[i].failure.Some?
    ensures i < |Step(l, e).generations| && Step(l, e).generations[i].failure.Some?
  {
    ClosedWaits(l, e);
    match e
    case StartCalled(killThrows, spawnThrows) =>
      assert StopCurrent(l, killThrows).0 == l;
    case ProcessExits(x) =>
      if x < |l.generations| { ExitIsExited(l, x); }
    case _ =>
  }

  lemma {:induction false} ClosedStays(l: Lifecycle, e: Event)
    requires Inv(l) && Closed(l)
    ensures Inv(Step(l, e)) && Closed(Step(l, e))
    ensures |Step(l, e).generations| == |l.generations| && Step(l, e).current == l.current
  {
    StepKeepsInv(l, e);
    ClosedWaits(l, e);
    forall i | 0 <= i < |l.generations| && l.generations[i].failure.Some?
      ensures i < |Step(l, e).generations| && Step(l, e).generations[i].failure.Some?
    {
      FailuresStay(l, e, i);
    }
  }

  lemma {:induction false} ClosedWaits(l: Lifecycle, e: Event)
    requires Inv(l) && Closed(l)
    ensures var l' := Step(l, e);
            && |l'.generations| == |l.generations| && l'.current == l.current
            && (forall w :: w in l'.waitingLaunches ==> w in l.waitingLaunches)
  {
    if e.CleanupResolves? && e.k < |l.waitingLaunches| {
      assert RunWaitingLaunch(l, e.k, e.spawnThrows) == l.(waitingLaunches := Without(l.waitingLaunches, e.k));
    }
  }

  lemma {:induction false} ClosedForGood(l: Lifecycle, es: seq<Event>)
    requires Inv(l) && Closed(l)
    ensures Closed(Run(l, es)) && |Run(l, es).generations| == |l.generations| && Run(l, es).current == l.current
  {
    if es != [] {
      ClosedForGood(l, es[..|es| - 1]);
      ClosedStays(Run(l, es[..|es| - 1]), es[|es| - 1]);
    }
  }

  /** After its exit, a generation that was ending without failure has resolved its cleanup; any other keeps how it settled. */
  lemma {:induction false} ExitResolves(l: Lifecycle, i: nat, w: nat)
    requires Inv(l) && i < |l.generations| && w < |l.generations|
    requires l.generations[w].failure.None? && Ending(l.generations[w]) && (i != w ==> l.generations[w].settled)
    ensures var l' := Step(l, ProcessExits(i));
            && l'.waitingLaunches == l.waitingLaunches && |l'.generations| == |l.generations|
            && l'.stoppingGeneration == l.stoppingGeneration
            && l'.generations[w].settled && l'.generations[w].failure.None? && !l'.generations[i].Alive()
  {
    ExitIsExited(l, i);
  }

  /** Processes that are waited for exit; then a start waiting for a cleanup that has not failed goes through. */
  lemma {:induction false} WaitingCanLaunch(l: Lifecycle, k: nat) returns (es: seq<Event>)
    requires Inv(l) && k < |l.waitingLaunches| && l.generations[l.waitingLaunches[k]].failure.None?
    ensures |Run(l, es).generations| > |l.generations|
  {
    var w := l.waitingLaunches[k];
    var i := if l.stoppingGeneration.Some? then l.stoppingGeneration.value else w;
    assert w in l.waitingLaunches;
    ExitResolves(l, w, w);
    StepKeepsInv(l, ProcessExits(w));
    var l1 := Step(l, ProcessExits(w));
    ExitResolves(l1, i, w);
    StepKeepsInv(l1, ProcessExits(i));
    var l2 := Step(l1, ProcessExits(i));
    assert |RunWaitingLaunch(l2, k, false).generations| > |l.generations|;
    assert Run(l, []) == l;
    RunSnoc(l, [], ProcessExits(w));
    RunSnoc(l, [] + [ProcessExits(w)], ProcessExits(i));
    es := [] + [ProcessExits(w)] + [ProcessExits(i)];
    RunSnoc(l, es, CleanupResolves(k, false));
    es := es + [CleanupResolves(k, false)];
  }

  /** After a failed cleanup nothing is launched in any continuation, if and only if no start waits for a cleanup that may still succeed. */
  lemma {:induction false} FailsClosedIff(l: Lifecycle)
    requires Inv(l) && Poisoned(l)
    ensures (forall es :: |Run(l, es).generations| == |l.generations|) <==> Closed(l)
  {
    if Closed(l) {
      forall es ensures |Run(l, es).generations| == |l.generations| { ClosedForGood(l, es); }
    } else {
      var w :| w in l.waitingLaunches && l.generations[w].failure.None?;
      var k :| 0 <= k < |l.waitingLaunches| && l.waitingLaunches[k] == w;
      var es := WaitingCanLaunch(l, k);
    }
  }

  // ---------- One process, unless starts overlap ----------

  /**
   Only the current generation can have a process, and at most one start waits: for its
   cleanup, or, with nothing current, for one that has not failed.
   */
  ghost predicate Single(l: Lifecycle)
    requires l.Valid()
  {
    && (forall i :: 0 <= i < |l.generations| && l.current != Some(i) ==> !l.generations[i].Alive())
    && (l.current.Some? ==> !l.generations[l.current.value].settled || l.generations[l.current.value].failure.Some?)
    && |l.waitingLaunches| <= 1
    && (l.waitingLaunches != [] ==>
          if l.current.None? then l.generations[l.waitingLaunches[0]].failure.None? else l.current == Some(l.waitingLaunches[0]))
  }

  /** No start waits, or the one that does will be refused. */
  predicate SafeToStart(l: Lifecycle)
    requires l.Valid()
  {
    l.waitingLaunches == [] || l.generations[l.waitingLaunches[0]].failure.Some?
  }

  /** A start is called while another one waits for a cleanup that may still succeed. */
  predicate Overlaps(l: Lifecycle, e: Event)
    requires l.Valid()
  {
    e.StartCalled? && !SafeToStart(l)
  }

  lemma {:induction false} StopKeepsSingle(l: Lifecycle, killThrows: bool)
    requires Inv(l) && Single(l)
    ensures var l' := StopCurrent(l, killThrows).0; l'.Valid() && Single(l')
    ensures var l' := StopAndWait(l, killThrows).0; l'.Valid() && Single(l')
  {
  }

  lemma {:induction false} LaunchKeepsSingle(l: Lifecycle, spawnThrows: bool)
    requires Inv(l) && Single(l) && l.current.None? && l.waitingLaunches == []
    ensures var l' := Launch(l, spawnThrows).0; l'.Valid() && Single(l')
  {
  }

  lemma {:induction false} StartKeepsSingle(l: Lifecycle, killThrows: bool, spawnThrows: bool)
    requires Inv(l) && Single(l) && SafeToStart(l)
    ensures var l' := Start(l, killThrows, spawnThrows).0; l'.Valid() && Single(l')
  {
    if l.waitingLaunches == [] {
      StopKeepsInv(l, killThrows);
      StopKeepsSingle(l, killThrows);
      var l1 := StopCurrent(l, killThrows).0;
      if l1.current.None? {
        LaunchKeepsSingle(l1, spawnThrows);
      }
    } else {
      RefusedStart(l, killThrows, spawnThrows);
    }
  }

  /** Behind a failed cleanup a start is refused and changes nothing. */
  lemma {:induction false} RefusedStart(l: Lifecycle, killThrows: bool, spawnThrows: bool)
    requires Inv(l) && Poisoned(l)
    ensures Start(l, killThrows, spawnThrows) == (l, StartRefused)
  {
    assert StopCurrent(l, killThrows).0 == l;
  }

  lemma {:induction false} WaitingKeepsSingle(l: Lifecycle, k: nat, spawnThrows: bool)
    requires Inv(l) && Single(l) && k < |l.waitingLaunches|
    ensures var l' := RunWaitingLaunch(l, k, spawnThrows); l'.Valid() && Single(l')
  {
    var l1 := l.(waitingLaunches := Without(l.waitingLaunches, k));
    if l1.current.None? {
      LaunchKeepsSingle(l1, spawnThrows);
    }
  }

  lemma {:induction false} ExitKeepsSingle(l: Lifecycle, i: nat)
    requires Inv(l) && Single(l) && i < |l.generations| && l.generations[i].Alive()
    ensures var l' := Exit(l, i).0; l'.Valid() && Single(l')
  {
    ExitIsExited(l, i);
  }

  lemma {:induction false} StepKeepsSingle(l: Lifecycle, e: Event)
    requires Inv(l) && Single(l) && !Overlaps(l, e)
    ensures Inv(Step(l, e)) && Single(Step(l, e))
  {
    StepKeepsInv(l, e);
    match e
    case StartCalled(killThrows, spawnThrows) => StartKeepsSingle(l, killThrows, spawnThrows);
    case StopCalled(killThrows) => StopKeepsSingle(l, killThrows);
    case StopAndWaitCalled(killThrows) => StopKeepsSingle(l, killThrows);
    case CleanupResolves(k, spawnThrows) => if k < |l.waitingLaunches| { WaitingKeepsSingle(l, k, spawnThrows); }
    case ProcessExits(i) => if i < |l.generations| && l.generations[i].Alive() { ExitKeepsSingle(l, i); }
    case _ =>
  }

  ghost predicate NoOverlap(es: seq<Event>) {
    forall n :: 0 <= n < |es| ==> !Overlaps(Run(Fresh, es[..n]), es[n])
  }

  ghost predicate OneAlive(l: Lifecycle) {
    forall i, j :: 0 <= i < |l.generations| && 0 <= j < |l.generations| && l.generations[i].Alive() && l.generations[j].Alive() ==> i == j
  }

  lemma {:induction false} RunKeepsSingle(es: seq<Event>)
    requires NoOverlap(es)
    ensures Single(Run(Fresh, es))
  {
    if es != [] {
      var shorter := es[..|es| - 1];
      assert forall n :: 0 <= n < |shorter| ==> shorter[..n] == es[..n];
      RunKeepsSingle(shorter);
      StepKeepsSingle(Run(Fresh, shorter), es[|es| - 1]);
    }
  }

  /** Without overlapping starts the lifecycle never has two processes. */
  lemma {:induction false} OneProcessUnlessStartsOverlap(es: seq<Event>)
    requires NoOverlap(es)
    ensures OneAlive(Run(Fresh, es))
  {
    RunKeepsSingle(es);
  }

  // ---------- Exactly when a start is safe ----------

  /** One start, and then anything but starts. */
  predicate OneStart(es: seq<Event>) {
    es != [] && es[0].StartCalled? && forall k :: 0 < k < |es| ==> !es[k].StartCalled?
  }

  lemma {:induction false} SafeStartKeepsSingle(l: Lifecycle, es: seq<Event>)
    requires Inv(l) && Single(l) && SafeToStart(l) && OneStart(es)
    ensures Single(Run(l, es))
  {
    var n := |es| - 1;
    if n == 0 {
      assert Run(l, es[..0]) == l;
      StepKeepsSingle(l, es[0]);
    } else {
      SafeStartKeepsSingle(l, es[..n]);
      StepKeepsSingle(Run(l, es[..n]), es[n]);
    }
  }

  /** No launch is held back, and the k starts that wait do so for a cleanup that has resolved. */
  ghost predicate Ripe(l: Lifecycle, k: nat) {
    && Inv(l) && !ExitUnconfirmed(l) && |l.waitingLaunches| == k
    && forall w :: w in l.waitingLaunches ==> l.generations[w].settled && l.generations[w].failure.None?
  }

  /** The first of them launches, and only adds its process. */
  lemma {:induction false} RipeLaunches(l: Lifecycle, k: nat)
    requires Ripe(l, k) && k > 0
    ensures var l' := Step(l, CleanupResolves(0, false));
            && Ripe(l', k - 1) && |l'.generations| == |l.generations| + 1
            && l'.generations[..|l.generations|] == l.generations && l'.generations[|l.generations|].Alive()
  {
    WaitingLaunchKeepsInv(l, 0, false);
    assert l.waitingLaunches[0] in l.waitingLaunches;
  }

  /** With nothing current the start launches, and then the one that waited. */
  lemma {:induction false} StartBesideWaiting(l: Lifecycle) returns (es: seq<Event>)
    requires Inv(l) && Single(l) && !SafeToStart(l) && l.current.None?
    ensures OneStart(es) && !OneAlive(Run(l, es))
  {
    var start := StartCalled(false, false);
    StepKeepsInv(l, start);
    assert l.waitingLaunches[0] in l.waitingLaunches;
    var l1 := Step(l, start);
    assert l1 == Launch(l, false).0 && l1.generations[|l.generations|].Alive();
    assert Ripe(l1, 1);
    RipeLaunches(l1, 1);
    var l2 := Step(l1, CleanupResolves(0, false));
    assert l2.generations[|l.generations|] == l2.generations[..|l1.generations|][|l.generations|];
    assert Run(l, []) == l;
    RunSnoc(l, [], start);
    es := [] + [start];
    RunSnoc(l, es, CleanupResolves(0, false));
    es := es + [CleanupResolves(0, false)];
  }

  /** A generation that is being stopped, and for which a start waits, may still exit without failure. */
  lemma {:induction false} StartJoinsWaiting(l: Lifecycle)
    requires Inv(l) && Single(l) && !SafeToStart(l) && l.current.Some?
    ensures var l' := Step(l, StartCalled(false, false));
            && Inv(l') && l'.current == l.current && |l'.generations| == |l.generations| && |l'.waitingLaunches| == 2
            && (forall w :: w in l'.waitingLaunches ==> w == l.current.value)
            && l'.generations[l.current.value].failure.None? && Ending(l'.generations[l.current.value])
            && (forall i :: 0 <= i < |l'.generations| && i != l.current.value ==> !l'.generations[i].Alive())
  {
    StepKeepsInv(l, StartCalled(false, false));
    assert l.waitingLaunches[0] in l.waitingLaunches;
    assert l.waitingLaunches == [l.current.value];
  }

  lemma {:induction false} ExitRipens(l: Lifecycle)
    requires Inv(l) && l.current.Some? && |l.waitingLaunches| == 2
    requires forall w :: w in l.waitingLaunches ==> w == l.current.value
    requires l.generations[l.current.value].failure.None? && Ending(l.generations[l.current.value])
    requires forall i :: 0 <= i < |l.generations| && i != l.current.value ==> !l.generations[i].Alive()
    ensures Ripe(Step(l, ProcessExits(l.current.value)), 2)
  {
    var i := l.current.value;
    StepKeepsInv(l, ProcessExits(i));
    ExitResolves(l, i, i);
    ExitIsExited(l, i);
  }

  /** With one being stopped the start waits as well; once it exits, both launch. */
  lemma {:induction false} StartBehindWaiting(l: Lifecycle) returns (es: seq<Event>)
    requires Inv(l) && Single(l) && !SafeToStart(l) && l.current.Some?
    ensures OneStart(es) && !OneAlive(Run(l, es))
  {
    var start, exit, resolve := StartCalled(false, false), ProcessExits(l.current.value), CleanupResolves(0, false);
    StartJoinsWaiting(l);
    var l1 := Step(l, start);
    ExitRipens(l1);
    var l2 := Step(l1, exit);
    RipeLaunches(l2, 2);
    var l3 := Step(l2, resolve);
    RipeLaunches(l3, 1);
    var l4 := Step(l3, resolve);
    assert l4.generations[|l2.generations|] == l4.generations[..|l3.generations|][|l2.generations|];
    assert Run(l, []) == l;
    RunSnoc(l, [], start);
    es := [] + [start];
    RunSnoc(l, es, exit);
    es := es + [exit];
    RunSnoc(l, es, resolve);
    es := es + [resolve];
    RunSnoc(l, es, resolve);
    es := es + [resolve];
  }

  /**
   With at most one process so far: however kill and spawn come out and whatever follows short
   of another start, a start leads to no second process, if and only if no start waits for a
   cleanup that may still succeed.
   */
  lemma {:induction false} StartIsSafeIff(l: Lifecycle)
    requires Inv(l) && Single(l)
    ensures (forall es :: OneStart(es) ==> OneAlive(Run(l, es))) <==> SafeToStart(l)
  {
    if SafeToStart(l) {
      forall es | OneStart(es) ensures OneAlive(Run(l, es)) { SafeStartKeepsSingle(l, es); }
    } else if l.current.None? {
      var es := StartBesideWaiting(l);
    } else {
      var es := StartBehindWaiting(l);
    }
  }

  // ---------- Overlapping starts do happen ----------

  const StartIt := StartCalled(false, false)

  /** A process as launched, and one that was asked to stop and has not exited or has. */
  const Launched := Generation(true, false, false, false, false, false, false, None)
  const Leaving := Generation(true, false, true, false, true, true, false, None)
  const Left := Generation(true, false, true, true, true, true, true, None)

  lemma {:induction false} FirstStart()
    ensures Step(Fresh, StartIt) == Fresh.(generations := [Launched], current := Some(0))
  {
  }

  lemma {:induction false} SecondStart()
    ensures Step(Fresh.(generations := [Launched], current := Some(0)), StartIt)
         == Fresh.(generations := [Leaving], current := Some(0), waitingLaunches := [0])
  {
    var l := Fresh.(generations := [Launched], current := Some(0));
    assert StopCurrent(l, false).0 == l.(generations := [Leaving]);
  }

  lemma {:induction false} ThirdStart()
    ensures Step(Fresh.(generations := [Leaving], current := Some(0), waitingLaunches := [0]), StartIt)
         == Fresh.(generations := [Leaving], current := Some(0), waitingLaunches := [0, 0])
  {
    var l := Fresh.(generations := [Leaving], current := Some(0), waitingLaunches := [0]);
    assert StopCurrent(l, false).0 == l;
  }

  lemma {:induction false} FirstExit()
    ensures Step(Fresh.(generations := [Leaving], current := Some(0), waitingLaunches := [0, 0]), ProcessExits(0))
         == Fresh.(generations := [Left], waitingLaunches := [0, 0])
  {
    ExitIsExited(Fresh.(generations := [Leaving], current := Some(0), waitingLaunches := [0, 0]), 0);
  }

  lemma {:induction false} FirstLaunch()
    ensures Step(Fresh.(generations := [Left], waitingLaunches := [0, 0]), CleanupResolves(0, false))
         == Fresh.(generations := [Left, Launched], current := Some(1), waitingLaunches := [0])
  {
  }

  /** Two starts wait for the cleanup of the first generation, which resolves; the first of them launches. */
  lemma {:induction false} TwoStartsWait() returns (es: seq<Event>)
    ensures Run(Fresh, es) == Fresh.(generations := [Left, Launched], current := Some(1), waitingLaunches := [0])
  {
    assert Run(Fresh, []) == Fresh;
    RunSnoc(Fresh, [], StartIt);
    FirstStart();
    es := [] + [StartIt];
    RunSnoc(Fresh, es, StartIt);
    SecondStart();
    es := es + [StartIt];
    RunSnoc(Fresh, es, StartIt);
    ThirdStart();
    es := es + [StartIt];
    RunSnoc(Fresh, es, ProcessExits(0));
    FirstExit();
    es := es + [ProcessExits(0)];
    RunSnoc(Fresh, es, CleanupResolves(0, false));
    FirstLaunch();
    es := es + [CleanupResolves(0, false)];
  }

  /** Otherwise it may: the second start launches as well. */
  lemma {:induction false} OverlappingStartsSpawnTwice()
    ensures exists es :: !OneAlive(Run(Fresh, es))
  {
    var es := TwoStartsWait();
    RunSnoc(Fresh, es, CleanupResolves(0, false));
    var l := Run(Fresh, es + [CleanupResolves(0, false)]);
    assert l.generations[1].Alive() && l.generations[2].Alive();
  }

  /** And a cleanup failure of the first to launch does not keep the second from launching. */
  lemma {:induction false} OverlappingStartEscapesFailure()
    ensures exists es :: Poisoned(Run(Fresh, es)) && !Closed(Run(Fresh, es))
  {
    var es := TwoStartsWait();
    RunSnoc(Fresh, es, ProcessFails(1, true));
    var l := Run(Fresh, es + [ProcessFails(1, true)]);
    assert 0 in l.waitingLaunches && l.generations[0].failure.None?;
  }
}
