/**
 The sidecar lifecycle with its closure variables as fields. Every method keeps
 the invariant that a resolved cleanup leaves no process, so that an object called
 one start at a time never has two, and one whose cleanup failed launches no more.
 */
module SidecarLifecycle {
  import opened Wrappers
  import S = Sidecar

  class Lifecycle {
    var generations: seq<S.Generation>
    var current: Option<nat>
    var waitingLaunches: seq<nat>
    var stoppingGeneration: Option<nat>
    var stopWaits: map<nat, S.StopPromise>

    function Model(): S.Lifecycle
      reads this
    {
      S.Lifecycle(generations, current, waitingLaunches, stoppingGeneration, stopWaits)
    }

    ghost predicate Valid()
      reads this
    {
      S.Inv(Model())
    }

    /** Nothing but generation i has changed. */
    ghost predicate OnlyChanged(before: seq<S.Generation>, i: nat)
      reads this
    {
      |generations| == |before| && forall j :: 0 <= j < |before| && j != i ==> generations[j] == before[j]
    }

    constructor ()
      ensures Valid() && Model() == S.Fresh
    {
      generations, current, waitingLaunches, stoppingGeneration, stopWaits := [], None, [], None, map[];
    }

    method SettleCleanup(i: nat, cause: Option<S.Cause>)
      requires i < |generations|
      modifies this`generations
      ensures generations == old(generations)[i := S.Settle(old(generations)[i], cause)]
      ensures generations[i].settled && generations[i].failure == if old(generations)[i].settled then old(generations)[i].failure else cause
    {
      if generations[i].settled { return; }
      generations := generations[i := generations[i].(settled := true, failure := cause)];
    }

    method Terminate(i: nat, killThrows: bool, cause: S.Cause)
      requires i < |generations|
      modifies this`generations
      ensures generations == old(generations)[i := S.Terminate(old(generations)[i], killThrows, cause)]
      ensures generations[i].killRequested <==> old(generations)[i].killRequested || old(generations)[i].Alive()
      ensures generations[i].settled <==> old(generations)[i].settled || (killThrows && old(generations)[i].Alive() && !old(generations)[i].killRequested)
    {
      var g := generations[i];
      if g.exited || g.killRequested || !g.spawned { return; }
      generations := generations[i := g.(killRequested := true)];
      if killThrows { SettleCleanup(i, Some(cause)); }
    }

    method StopCurrent(killThrows: bool) returns (promise: S.StopPromise)
      requires Valid()
      modifies this
      ensures Valid() && (Model(), promise) == S.StopCurrent(old(Model()), killThrows)
      ensures promise == S.StoppedNow ==> current == None
      ensures promise.OnCleanup? ==> current == old(current) == Some(promise.generation) && S.Ending(generations[promise.generation])
      ensures old(S.Poisoned(Model())) ==> Model() == old(Model()) && promise.OnCleanup?
      ensures if old(current).Some? then OnlyChanged(old(generations), old(current).value) else generations == old(generations)
    {
      ghost var next := S.StopCurrent(Model(), killThrows).0;
      S.StopKeepsInv(Model(), killThrows);
      if current.None? { return S.StoppedNow; }
      var i := current.value;
      if generations[i].settled && generations[i].failure.Some? { return S.OnCleanup(i); }
      MarkStopping(i, killThrows);
      if !generations[i].spawned || generations[i].exited {
        SettleCleanup(i, None);
        current := None;
        promise := S.StoppedNow;
      } else {
        promise := S.OnCleanup(i);
      }
      assert Model() == next;
    }

    /** Reject a pending readiness, mark the generation as stopping and kill its process. */
    method MarkStopping(i: nat, killThrows: bool)
      requires i < |generations|
      modifies this`generations
      ensures generations == old(generations)[i := S.Stopped(old(generations)[i], killThrows)]
      ensures generations[i].stopping && (generations[i].ready || generations[i].failed) && generations[i].ready == old(generations)[i].ready
      ensures generations[i].Alive() ==> generations[i].killRequested
    {
      var previous := generations[i];
      if !previous.ready && !previous.failed { previous := previous.(failed := true); }
      generations := generations[i := previous.(stopping := true)];
      Terminate(i, killThrows, S.KillFailedInStop);
    }

    method Fail(i: nat, killThrows: bool)
      requires i < |generations|
      modifies this`generations
      ensures Model() == S.Fail(old(Model()), i, killThrows)
      ensures OnlyChanged(old(generations), i)
      ensures if old(Model().IsCurrent(i)) && !old(generations)[i].failed
              then generations[i].failed && (killThrows && old(generations)[i].Alive() && !old(generations)[i].killRequested ==> generations[i].settled)
              else generations == old(generations)
    {
      if current != Some(i) || generations[i].stopping || generations[i].failed { return; }
      generations := generations[i := generations[i].(failed := true)];
      Terminate(i, killThrows, S.KillFailedInFail);
    }

    /** A process error, an invalid port or the readiness timer. */
    method OnError(i: nat, killThrows: bool)
      requires Valid() && i < |generations|
      modifies this`generations
      ensures Valid() && Model() == S.Fail(old(Model()), i, killThrows)
      ensures OnlyChanged(old(generations), i)
      ensures if old(Model().IsCurrent(i)) && !old(generations)[i].failed then generations[i].failed else generations == old(generations)
      ensures old(Model().IsCurrent(i)) && !old(generations)[i].failed && generations[i].Alive() ==> generations[i].killRequested
    {
      S.AnnounceAndFailKeepInv(Model(), i, killThrows);
      Fail(i, killThrows);
    }

    method Ready(i: nat)
      requires Valid() && i < |generations|
      modifies this`generations
      ensures Valid() && Model() == S.Announce(old(Model()), i)
      ensures var g := old(generations)[i];
              generations == if current == Some(i) && !g.stopping && !g.failed then old(generations)[i := g.(ready := true)] else old(generations)
    {
      S.AnnounceAndFailKeepInv(Model(), i, false);
      if current != Some(i) || generations[i].stopping || generations[i].failed || generations[i].ready { return; }
      generations := generations[i := generations[i].(ready := true)];
    }

    method Launch(spawnThrows: bool) returns (promise: S.StartPromise)
      requires Valid()
      modifies this`generations, this`current
      ensures Valid() && (Model(), promise) == S.Launch(old(Model()), spawnThrows)
      ensures promise == S.StartRefused <==> old(S.ExitUnconfirmed(Model()))
      ensures promise == S.StartRefused ==> Model() == old(Model())
      ensures promise != S.StartRefused ==>
                && promise == S.OnReadiness(|old(generations)|) && current == Some(|old(generations)|)
                && |generations| == |old(generations)| + 1 && generations[..|old(generations)|] == old(generations)
                && generations[|old(generations)|].spawned == !spawnThrows && generations[|old(generations)|].failed == spawnThrows
    {
      S.LaunchKeepsInv(Model(), spawnThrows);
      if stoppingGeneration.Some? && generations[stoppingGeneration.value].Alive() {
        return S.StartRefused;
      }
      var i := |generations|;
      generations := generations + [S.Generation(false, false, false, false, false, false, false, None)];
      current := Some(i);
      if spawnThrows {
        Fail(i, false);
      } else {
        generations := generations[i := generations[i].(spawned := true)];
      }
      assert generations == old(generations) + [generations[i]];
      promise := S.OnReadiness(i);
    }

    method Start(killThrows: bool, spawnThrows: bool) returns (promise: S.StartPromise)
      requires Valid()
      modifies this
      ensures Valid() && (Model(), promise) == S.Start(old(Model()), killThrows, spawnThrows)
      ensures old(S.Poisoned(Model())) ==> promise == S.StartRefused && Model() == old(Model())
      ensures promise.OnReadiness? <==> |generations| > |old(generations)|
      ensures promise.OnReadiness? ==> current == Some(promise.generation) && promise.generation == |old(generations)|
      ensures promise.AfterCleanup? ==> current == old(current) == Some(promise.generation) && !generations[promise.generation].settled
                                        && waitingLaunches == old(waitingLaunches) + [promise.generation]
    {
      ghost var next := S.Start(Model(), killThrows, spawnThrows).0;
      S.StartKeepsInv(Model(), killThrows, spawnThrows);
      var previous := current;
      var stopped := StopCurrent(killThrows);
      if previous.None? {
        promise := Launch(spawnThrows);
      } else if generations[previous.value].settled {
        if generations[previous.value].failure.Some? {
          promise := S.StartRefused;
        } else {
          promise := Launch(spawnThrows);
        }
      } else {
        waitingLaunches := waitingLaunches + [previous.value];
        promise := S.AfterCleanup(previous.value);
      }
      assert Model() == next;
    }

    method StopAndWait(killThrows: bool) returns (promise: S.StopPromise)
      requires Valid()
      modifies this
      ensures Valid() && (Model(), promise) == S.StopAndWait(old(Model()), killThrows)
      ensures old(current).Some? ==> old(current).value in stopWaits && promise == stopWaits[old(current).value]
      ensures old(current).Some? && old(current).value !in old(stopWaits) ==> stoppingGeneration == old(current)
    {
      S.StopAndWaitKeepsInv(Model(), killThrows);
      var previous := if current.Some? then current else stoppingGeneration;
      if previous.None? { return S.StoppedNow; }
      if previous.value in stopWaits { return stopWaits[previous.value]; }
      promise := StopCurrent(killThrows);
      stoppingGeneration := previous;
      stopWaits := stopWaits[previous.value := promise];
    }

    method OnExit(i: nat) returns (unexpected: bool)
      requires Valid() && i < |generations| && generations[i].Alive()
      modifies this
      ensures Valid() && (Model(), unexpected) == S.Exit(old(Model()), i)
      ensures OnlyChanged(old(generations), i) && generations[i].exited && generations[i].settled
      ensures unexpected <==> !old(generations)[i].stopping
      ensures unexpected ==> current == old(current) && generations[i].failure.Some?
      ensures !unexpected ==> generations[i].failure == old(generations)[i].failure
      ensures !unexpected && old(current) == Some(i) ==> (current == None <==> generations[i].failure.None?)
    {
      S.ExitKeepsInv(Model(), i);
      generations := generations[i := generations[i].(exited := true)];
      if !generations[i].stopping {
        Fail(i, false);
        SettleCleanup(i, Some(S.UnexpectedExit));
        return true;
      }
      SettleCleanup(i, None);
      if current == Some(i) && generations[i].failure.None? { current := None; }
      return false;
    }

    method OnCleanupTimeout(i: nat)
      requires Valid() && i < |generations|
      modifies this`generations
      ensures Valid() && Model() == S.CleanupTimeout(old(Model()), i)
      ensures var g := old(generations)[i];
              generations == if g.stopping && !g.settled then old(generations)[i := g.(settled := true, failure := Some(S.CleanupTimedOut))]
                             else old(generations)
    {
      S.TimeoutKeepsInv(Model(), i);
      if !generations[i].stopping { return; }
      SettleCleanup(i, Some(S.CleanupTimedOut));
    }

    /** A start that waited for a cleanup: launch if it resolved, reject if it did not. */
    method CleanupResolves(k: nat, spawnThrows: bool)
      requires Valid() && k < |waitingLaunches|
      modifies this
      ensures Valid() && Model() == S.RunWaitingLaunch(old(Model()), k, spawnThrows)
      ensures var g := old(generations)[old(waitingLaunches)[k]];
              && (!g.settled ==> Model() == old(Model()))
              && (g.settled ==> waitingLaunches == old(waitingLaunches)[..k] + old(waitingLaunches)[k + 1..])
              && (g.settled && g.failure.Some? ==> generations == old(generations) && current == old(current))
              && (g.settled && g.failure.None? && !old(S.ExitUnconfirmed(Model())) ==>
                    |generations| == |old(generations)| + 1 && current == Some(|old(generations)|))
    {
      S.WaitingLaunchKeepsInv(Model(), k, spawnThrows);
      var g := generations[waitingLaunches[k]];
      if !g.settled { return; }
      waitingLaunches := S.Without(waitingLaunches, k);
      if g.failure.None? {
        var promise := Launch(spawnThrows);
      }
    }

    /** Whatever happens next, in the state the object is in. */
    method Handle(e: S.Event)
      requires Valid()
      modifies this
      ensures Valid() && Model() == S.Step(old(Model()), e)
    {
      match e {
        case StartCalled(killThrows, spawnThrows) => var _ := Start(killThrows, spawnThrows);
        case StopCalled(killThrows) => var _ := StopCurrent(killThrows);
        case StopAndWaitCalled(killThrows) => var _ := StopAndWait(killThrows);
        case CleanupResolves(k, spawnThrows) => if k < |waitingLaunches| { CleanupResolves(k, spawnThrows); }
        case PortAnnounced(i) => if i < |generations| { Ready(i); }
        case ProcessFails(i, killThrows) => if i < |generations| { OnError(i, killThrows); }
        case ProcessExits(i) => if i < |generations| && generations[i].Alive() { var _ := OnExit(i); }
        case TimerFires(i) => if i < |generations| { OnCleanupTimeout(i); }
      }
    }

    /** Any events in any order; once the cleanup has failed with no start waiting for another, nothing is launched. */
    method HandleAll(es: seq<S.Event>)
      requires Valid()
      modifies this
      ensures Valid() && Model() == S.Run(old(Model()), es)
      ensures old(S.Closed(Model())) ==> S.Closed(Model()) && |generations| == |old(generations)| && current == old(current)
    {
      ghost var l := Model();
      for i := 0 to |es|
        invariant Valid() && Model() == S.Run(l, es[..i])
      {
        S.RunSnoc(l, es[..i], es[i]);
        assert es[..i + 1] == es[..i] + [es[i]];
        Handle(es[i]);
      }
      assert es[..|es|] == es;
      if S.Closed(l) {
        S.ClosedForGood(l, es);
      }
    }
  }

  /** A new object: called one start at a time, it never has two processes. */
  method Serve(es: seq<S.Event>) returns (t: Lifecycle)
    ensures fresh(t) && t.Valid() && t.Model() == S.Run(S.Fresh, es)
    ensures S.NoOverlap(es) ==> S.OneAlive(t.Model())
  {
    t := new Lifecycle();
    t.HandleAll(es);
    if S.NoOverlap(es) {
      S.OneProcessUnlessStartsOverlap(es);
    }
  }
}
