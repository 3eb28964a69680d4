/**
 The restoration of a workspace by a sidecar that has become ready: one readiness
 promise per generation, which a failure rejects or, once it has resolved, robs of
 the workspace it restored.
 */
module BackendRestoration {
  import opened Wrappers

  /** Its readiness promise is pending until `settled`, and then `resolved` or rejected. */
  datatype Generation = Generation(settled: bool, resolved: bool, failed: bool)

  datatype Restoration = Restoration(generations: seq<Generation>, current: Option<nat>, restored: bool)
  {
    ghost predicate Valid() {
      current.Some? ==> current.value < |generations|
    }
  }

  const Fresh := Restoration([], None, false)

  function Abort(g: Generation): Generation {
    g.(failed := true, settled := true)
  }

  function AbortCurrent(r: Restoration): Restoration
    requires r.Valid()
  {
    if r.current.None? then r
    else r.(generations := r.generations[r.current.value := Abort(r.generations[r.current.value])])
  }

  function BeginGeneration(r: Restoration): Restoration
    requires r.Valid()
  {
    var r1 := AbortCurrent(r);
    Restoration(r1.generations + [Generation(false, false, false)], Some(|r1.generations|), false)
  }

  /** What the restoring steps came to: a workspace, none, an error or a timeout. */
  datatype Outcome = Workspace | NoWorkspace | Error

  /** The current generation's steps end; an aborted generation takes no notice. */
  function Complete(r: Restoration, outcome: Outcome): Restoration
    requires r.Valid()
  {
    if r.current.None? || r.generations[r.current.value].failed || r.generations[r.current.value].settled then r
    else if outcome.Error? then Fail(r)
    else r.(generations := r.generations[r.current.value := Generation(true, true, false)], restored := outcome.Workspace?)
  }

  function Fail(r: Restoration): Restoration
    requires r.Valid()
  {
    if r.current.None? || r.generations[r.current.value].failed then r
    else AbortCurrent(r).(restored := false)
  }

  function Cancel(r: Restoration): Restoration
    requires r.Valid()
  {
    if r.current.None? then r else AbortCurrent(r).(current := None, restored := false)
  }

  /** The promise that `getReadiness` hands out; None is one that is rejected at once. */
  function Readiness(r: Restoration): Option<nat>
    requires r.Valid()
  {
    if r.current.None? || r.generations[r.current.value].failed then None else r.current
  }
}
