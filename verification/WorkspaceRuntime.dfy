/**
 The coordinator, the sidecar lifecycle and the restoration wired together the way
 the main process wires them: closing and cleaning up cancel the restoration and
 call `stop`; opening calls `start`, whose launch begins a restoration, and then
 waits for readiness and for the restoration; a failing generation fails the
 restoration; and an unexpected exit cancels it and calls `markUnresolved` inside
 the exit handler.
 */
module WorkspaceRuntime {
  import opened Wrappers
  import C = WorkspaceSwitch
  import L = Sidecar
  import B = BackendRestoration

  /** The runtime promise that the running operation awaits. */
  datatype Link =
    | NoLink
    | Stopping(promise: L.StopPromise)
    | AwaitReadiness(start: L.StartPromise)
    | Restoring(generation: nat)
    | OpenReturned(success: bool)

  datatype State = State(c: C.State, l: L.Lifecycle, r: B.Restoration, link: Link)
  {
    ghost predicate Valid() { l.Valid() && r.Valid() }
  }

  /** Answers of the outside world that one segment may need. */
  datatype Oracle = Oracle(validated: Option<C.Path>, killThrows: bool, spawnThrows: bool, failure: C.Failure, port: nat)

  datatype Event =
    | Coordinator(event: C.Event, o: Oracle)   // any event that settles no runtime promise
    | StopSettles(o: Oracle)
    | ReadinessSettles
    | RestorationEnds(outcome: B.Outcome)      // the restoring steps of the current generation
    | RestorationSettles
    | OpenReturns(o: Oracle)
    | ProcessExits(i: nat, failure: C.Failure)
    | ProcessFails(i: nat, killThrows: bool)   // process error, invalid port or readiness timeout
    | PortAnnounced(i: nat)
    | CleanupTimerFires(i: nat)

  function Init(): State {
    State(C.Init(None), L.Fresh, B.Fresh, NoLink)
  }

  /** Suspended right after calling close or cleanup, both of which call `stop`. */
  predicate AwaitsStop(pc: C.Pc) {
    pc.AwaitClose? || pc.CleaningFailedStart? || pc.CleaningSuperseded? || pc.CleaningStale? || pc.RetryCleaning?
  }

  /** A launch begins a restoration, and a launch whose spawn throws fails it at once. */
  function Began(r: B.Restoration, spawnThrows: bool): B.Restoration
    requires r.Valid()
  {
    if spawnThrows then B.Fail(B.BeginGeneration(r)) else B.BeginGeneration(r)
  }

  /** Take a coordinator step; a segment that newly suspends on a runtime promise has just made that call. */
  function Drive(s: State, e: C.Event, o: Oracle): State
    requires s.Valid()
  {
    var c := C.Step(s.c, e);
    if c.pc == s.c.pc then s.(c := c)
    else if AwaitsStop(c.pc) then
      var (l, p) := L.StopCurrent(s.l, o.killThrows);
      State(c, l, B.Cancel(s.r), Stopping(p))
    else if c.pc.AwaitStart? then
      var (l, p) := L.Start(s.l, o.killThrows, o.spawnThrows);
      State(c, l, if |l.generations| > |s.l.generations| then Began(s.r, o.spawnThrows) else s.r, AwaitReadiness(p))
    else s.(c := c, link := NoLink)
  }

  /** How a stop promise has settled, or None while it is pending. */
  function StopOutcome(l: L.Lifecycle, p: L.StopPromise): Option<bool> {
    match p
    case StoppedNow => Some(true)
    case OnCleanup(i) =>
      if i < |l.generations| && l.generations[i].settled then Some(l.generations[i].failure.None?) else None
  }

  predicate SettlesNoRuntimePromise(e: C.Event) {
    match e
    case CloseSettled(_) | StartSettled(_) | CleanupSettled(_, _) | Mark(_) => false
    case _ => true
  }

  /** The event with which a stop promise settles. */
  function StopEvent(pc: C.Pc, settled: C.Settled, validated: Option<C.Path>): C.Event {
    if pc.AwaitClose? then C.CloseSettled(settled) else C.CleanupSettled(settled, validated)
  }

  function OnStopSettles(s: State, o: Oracle): State
    requires s.Valid()
  {
    if !s.link.Stopping? || StopOutcome(s.l, s.link.promise).None? then s else
    var settled := if StopOutcome(s.l, s.link.promise).value then C.Resolved else C.Rejected(o.failure);
    Drive(s, StopEvent(s.c.pc, settled, o.validated), o)
  }

  /** Once the sidecar is ready the opening asks for the restoration's readiness. */
  function OnReadinessSettles(s: State): State
    requires s.Valid()
  {
    if !s.link.AwaitReadiness? then s else
    match s.link.start
    case StartRefused => s.(link := OpenReturned(false))
    case AfterCleanup(_) => s
    case OnReadiness(i) =>
      if i >= |s.l.generations| then s
      else if s.l.generations[i].ready then
        var readiness := B.Readiness(s.r);
        s.(link := if readiness.Some? then Restoring(readiness.value) else OpenReturned(false))
      else if s.l.generations[i].failed then s.(link := OpenReturned(false))
      else s
  }

  /** The restoring steps run once the current generation has announced its port. */
  function OnRestorationEnds(s: State, outcome: B.Outcome): State
    requires s.Valid()
  {
    if s.r.current.None? || s.r.current.value >= |s.l.generations| || !s.l.generations[s.r.current.value].ready then s
    else s.(r := B.Complete(s.r, outcome))
  }

  /** After restoration the opening is checked against the coordinator's generation and needs a workspace. */
  function OnRestorationSettles(s: State): State {
    if !s.link.Restoring? || !s.c.pc.AwaitStart? || s.link.generation >= |s.r.generations|
       || !s.r.generations[s.link.generation].settled then s
    else s.(link := OpenReturned(s.r.generations[s.link.generation].resolved && s.c.pc.next == s.c.generation && s.r.restored))
  }

  function OnOpenReturns(s: State, o: Oracle): State
    requires s.Valid()
  {
    if !s.link.OpenReturned? then s
    else Drive(s, C.StartSettled(if s.link.success then C.OpenedOn(o.port) else C.OpenFailed(o.failure)), o)
  }

  /** `fail` reports the generation as unavailable before it kills the process. */
  function OnProcessFails(s: State, i: nat, killThrows: bool): State
    requires s.Valid()
  {
    if i >= |s.l.generations| then s else
    var reports := s.l.IsCurrent(i) && !s.l.generations[i].failed;
    s.(l := L.Fail(s.l, i, killThrows), r := if reports then B.Fail(s.r) else s.r)
  }

  function OnProcessExits(s: State, i: nat, failure: C.Failure): State
    requires s.Valid()
  {
    if i >= |s.l.generations| || !s.l.generations[i].Alive() then s else
    var (l, unexpected) := L.Exit(s.l, i);
    if unexpected then State(C.OnMark(s.c, failure), l, B.Cancel(s.r), s.link) else s.(l := l)
  }

  function Step(s: State, e: Event): State
    requires s.Valid()
  {
    match e
    case Coordinator(ev, o) => if SettlesNoRuntimePromise(ev) then Drive(s, ev, o) else s
    case StopSettles(o) => OnStopSettles(s, o)
    case ReadinessSettles => OnReadinessSettles(s)
    case RestorationEnds(outcome) => OnRestorationEnds(s, outcome)
    case RestorationSettles => OnRestorationSettles(s)
    case OpenReturns(o) => OnOpenReturns(s, o)
    case ProcessExits(i, f) => OnProcessExits(s, i, f)
    case ProcessFails(i, k) => OnProcessFails(s, i, k)
    case PortAnnounced(i) => if i < |s.l.generations| then s.(l := L.Announce(s.l, i)) else s
    case CleanupTimerFires(i) => if i < |s.l.generations| then s.(l := L.CleanupTimeout(s.l, i)) else s
  }

  // ---------- Invariant ----------

  /** A generation that cannot hold a process any more. */
  predicate Gone(g: L.Generation) {
    g.settled && g.failure.None? && !g.Alive()
  }

  ghost predicate GoodGeneration(g: L.Generation) {
    && (g.exited || g.killRequested || g.ready ==> g.spawned)
    && (g.exited ==> g.settled)
    && (!g.spawned ==> g.failed)
    && (g.stopping && !g.settled ==> g.spawned)
    && (g.settled && g.failure.None? ==> g.stopping && !g.Alive())
    && (g.failure.Some? ==> g.settled && g.spawned)
    && (g.failure == Some(L.UnexpectedExit) ==> g.exited && g.failed && !g.stopping)
    && (g.failure == Some(L.KillFailedInStop) || g.failure == Some(L.CleanupTimedOut) ==> g.stopping)
    && (g.failure == Some(L.KillFailedInFail) ==> g.failed && !g.stopping)
  }

  ghost predicate LifecycleInv(l: L.Lifecycle) {
    && l.Valid()
    && l.waitingLaunches == [] && l.stoppingGeneration.None?
    && (forall i :: 0 <= i < |l.generations| ==> GoodGeneration(l.generations[i]))
    && (forall i :: 0 <= i < |l.generations| && l.current != Some(i) ==> Gone(l.generations[i]))
    && (l.current.Some? ==> l.current.value == |l.generations| - 1 && !Gone(l.generations[l.current.value]))
  }

  /** The current generation exists and nobody has asked it to stop. */
  ghost predicate Running(s: State)
    requires s.l.Valid()
  {
    s.l.current.Some? && !s.l.generations[s.l.current.value].stopping
  }

  ghost predicate LinkInv(s: State)
    requires s.l.Valid()
  {
    && (s.link.Stopping? <==> AwaitsStop(s.c.pc))
    && (s.c.pc.AwaitStart? ==> Running(s))
    && (s.link.AwaitReadiness? || s.link.Restoring? || s.link.OpenReturned? <==> s.c.pc.AwaitStart?)
    && (s.link.Stopping? ==> match s.link.promise {
          case StoppedNow => s.l.current.None?
          case OnCleanup(i) =>
            i < |s.l.generations| &&
            ((s.l.current == Some(i) && (s.l.generations[i].stopping || s.l.generations[i].failure.Some?)) ||
             (s.l.current.None? && Gone(s.l.generations[i])))
        })
    && (s.c.pc.Remembering? ==> Running(s) && s.l.generations[s.l.current.value].ready)
    && (s.link.AwaitReadiness? ==> s.link.start == L.OnReadiness(s.l.current.value))
    && (s.link.Restoring? ==> s.l.current == Some(s.link.generation) && s.l.generations[s.link.generation].ready)
    && (s.link.OpenReturned? && s.link.success ==> s.l.generations[s.l.current.value].ready)
  }

  /** Restorations match launches, and a current generation that failed has nothing restored and never will. */
  ghost predicate RestorationInv(s: State)
    requires s.l.Valid()
  {
    && s.r.Valid() && |s.r.generations| == |s.l.generations|
    && (s.r.current.Some? ==> s.r.current == s.l.current && Running(s))
    && (s.r.current.None? ==> !s.r.restored)
    && (s.r.current.Some? && s.l.generations[s.r.current.value].failed ==> s.r.generations[s.r.current.value].failed)
    && (s.r.current.Some? && s.r.generations[s.r.current.value].failed ==> !s.r.restored)
  }

  /** A current generation is outstanding, and an exit nobody asked for has been latched. */
  ghost predicate Inv(s: State) {
    && C.Inv(s.c)
    && LifecycleInv(s.l)
    && LinkInv(s)
    && RestorationInv(s)
    && (s.l.current.Some? ==> s.c.log.facts.outstanding)
    && (Running(s) && s.l.generations[s.l.current.value].exited ==> s.c.latch.Some?)
  }

  // ---------- What a coordinator segment can do to the runtime ----------

  /** A segment starts a runtime only with nothing outstanding, and only a settled start leads to remembering. */
  ghost predicate Shape(c: C.State, c': C.State) {
    && (c'.pc != c.pc && c'.pc.AwaitStart? ==>
          !c.log.facts.outstanding && c'.log.facts.outstanding)
    && (c'.pc != c.pc && c'.pc.Remembering? ==> c.pc.AwaitStart?)
  }

  ghost function Readies(c: C.State): nat {
    c.log.facts.readies
  }

  /** A segment that publishes no `ready` and forgets neither a started runtime nor a latched failure. */
  ghost predicate Keeps(c: C.State, c': C.State) {
    && Readies(c') == Readies(c)
    && (c.log.facts.outstanding ==> c'.log.facts.outstanding)
    && (c.latch.Some? ==> c'.latch.Some?)
  }

  /** The one segment that publishes `ready`: nothing superseded the opening and nothing is latched. */
  predicate PublishesReady(c: C.State) {
    c.pc.Remembering? && c.pc.next == c.generation && c.latch.None?
  }

  ghost predicate Undisturbed(c: C.State, c': C.State) {
    Shape(c, c') && Keeps(c, c') && (c'.pc.Remembering? ==> c'.pc == c.pc)
  }

  lemma {:induction false} SwitchShape(c: C.State, asked: C.Path, validated: Option<C.Path>)
    ensures Undisturbed(c, C.EnterSwitch(c, asked, validated))
  {
  }

  lemma {:induction false} EnterShape(c: C.State, operation: C.Operation, validated: Option<C.Path>)
    ensures Undisturbed(c, C.Enter(c, operation, validated))
  {
    match operation
    case Switch(path) => SwitchShape(c, path, validated);
    case Retry => if c.last.Some? { SwitchShape(c, c.last.value, validated); }
    case _ =>
  }

  lemma {:induction false} BeginShape(c: C.State, validated: Option<C.Path>)
    ensures Undisturbed(c, C.BeginOperation(c, validated))
  {
    if c.pc == C.Idle && c.queue != [] {
      EnterShape(C.Emit(c.(queue := c.queue[1..]), C.Began(c.queue[0])), c.queue[0], validated);
    }
  }

  lemma {:induction false} QuietShape(c: C.State, e: C.Event)
    requires C.Inv(c) && SettlesNoRuntimePromise(e) && !e.Remembered?
    ensures Shape(c, C.Step(c, e)) && Keeps(c, C.Step(c, e))
    ensures C.Step(c, e).pc.Remembering? ==> C.Step(c, e).pc == c.pc
  {
    match e
    case Begin(v) => BeginShape(c, v);
    case Picked(choice, v) => if choice.Some? { SwitchShape(C.Emit(c, C.Chosen(choice.value)), choice.value, v); }
    case UpdateSettled(_, v) => if c.pc.Updating? && c.pc.previous.Some? { SwitchShape(c, c.pc.previous.value, v); }
    case _ =>
  }

  // ---------- Every step keeps the invariant ----------

  lemma {:induction false} LaunchKeeps(l: L.Lifecycle, spawnThrows: bool)
    requires LifecycleInv(l) && l.current.None?
    ensures LifecycleInv(L.Launch(l, spawnThrows).0)
  {
  }

  lemma {:induction false} StopKeeps(l: L.Lifecycle, killThrows: bool)
    requires LifecycleInv(l)
    ensures var (l', p) := L.StopCurrent(l, killThrows);
            && LifecycleInv(l')
            && |l'.generations| == |l.generations|
            && (l'.current.Some? ==> l.current.Some?)
            && match p {
                 case StoppedNow => l'.current.None?
                 case OnCleanup(i) =>
                   l'.current == Some(i) && (l'.generations[i].stopping || l'.generations[i].failure.Some?) &&
                   (!l'.generations[i].stopping ==> l' == l)
               }
  {
  }

  /** What a coordinator segment leaves behind, for the runtime to stay in step with it. */
  ghost predicate Drivable(s: State, c': C.State)
    requires s.l.Valid()
  {
    && C.Inv(c') && Shape(s.c, c')
    && (s.l.current.Some? ==> c'.log.facts.outstanding && (s.c.latch.Some? ==> c'.latch.Some?))
    && (c'.pc.Remembering? ==> c'.pc == s.c.pc || (Running(s) && s.l.generations[s.l.current.value].ready))
  }

  lemma {:induction false} DriveStopKeepsInv(s: State, c': C.State, killThrows: bool)
    requires Inv(s) && Drivable(s, c') && AwaitsStop(c'.pc)
    ensures var (l, p) := L.StopCurrent(s.l, killThrows); Inv(State(c', l, B.Cancel(s.r), Stopping(p)))
  {
    StopKeeps(s.l, killThrows);
  }

  lemma {:induction false} DriveStartKeepsInv(s: State, c': C.State, o: Oracle)
    requires Inv(s) && Drivable(s, c') && c'.pc != s.c.pc && c'.pc.AwaitStart?
    ensures var (l, p) := L.Start(s.l, o.killThrows, o.spawnThrows);
            |l.generations| > |s.l.generations| && Inv(State(c', l, Began(s.r, o.spawnThrows), AwaitReadiness(p)))
  {
    LaunchKeeps(s.l, o.spawnThrows);
  }

  lemma {:induction false} DriveKeepsInv(s: State, e: C.Event, o: Oracle)
    requires Inv(s) && Drivable(s, C.Step(s.c, e))
    ensures Inv(Drive(s, e, o))
  {
    var c' := C.Step(s.c, e);
    if c'.pc != s.c.pc {
      if AwaitsStop(c'.pc) {
        DriveStopKeepsInv(s, c', o.killThrows);
      } else if c'.pc.AwaitStart? {
        DriveStartKeepsInv(s, c', o);
      }
    }
  }

  lemma {:induction false} CoordinatorKeepsInv(s: State, e: C.Event, o: Oracle)
    requires Inv(s) && SettlesNoRuntimePromise(e)
    ensures Inv(Drive(s, e, o))
  {
    C.StepKeepsInv(s.c, e);
    if !e.Remembered? { QuietShape(s.c, e); }
    DriveKeepsInv(s, e, o);
  }

  /** A stop promise resolves only after the current generation is gone. */
  lemma {:induction false} ResolvedStopMeansGone(s: State)
    requires Inv(s) && s.link.Stopping? && StopOutcome(s.l, s.link.promise) == Some(true)
    ensures s.l.current.None?
  {
  }

  /** A close that settles: while the runtime is not confirmed gone, it stays accounted for. */
  lemma {:induction false} CloseDrivable(s: State, settled: C.Settled)
    requires Inv(s) && s.c.pc.AwaitClose? && (settled.Resolved? ==> s.l.current.None?)
    ensures Drivable(s, C.Step(s.c, C.CloseSettled(settled)))
  {
    C.StepKeepsInv(s.c, C.CloseSettled(settled));
  }

  lemma {:induction false} CleanupDrivable(s: State, settled: C.Settled, validated: Option<C.Path>)
    requires Inv(s) && AwaitsStop(s.c.pc) && !s.c.pc.AwaitClose? && (settled.Resolved? ==> s.l.current.None?)
    ensures Drivable(s, C.Step(s.c, C.CleanupSettled(settled, validated)))
  {
    C.StepKeepsInv(s.c, C.CleanupSettled(settled, validated));
    if settled.Resolved? && s.c.pc.RetryCleaning? && s.c.last.Some? {
      SwitchShape(C.CleanedUp(s.c), s.c.last.value, validated);
    }
  }

  lemma {:induction false} StopDrivable(s: State, settled: C.Settled, validated: Option<C.Path>)
    requires Inv(s) && AwaitsStop(s.c.pc) && (settled.Resolved? ==> s.l.current.None?)
    ensures Drivable(s, C.Step(s.c, StopEvent(s.c.pc, settled, validated)))
  {
    if s.c.pc.AwaitClose? {
      CloseDrivable(s, settled);
    } else {
      CleanupDrivable(s, settled, validated);
    }
  }

  lemma {:induction false} StopSettlesKeepsInv(s: State, o: Oracle)
    requires Inv(s)
    ensures Inv(OnStopSettles(s, o))
  {
    if s.link.Stopping? && StopOutcome(s.l, s.link.promise).Some? {
      var ok := StopOutcome(s.l, s.link.promise).value;
      var settled := if ok then C.Resolved else C.Rejected(o.failure);
      if ok { ResolvedStopMeansGone(s); }
      StopDrivable(s, settled, o.validated);
      DriveKeepsInv(s, StopEvent(s.c.pc, settled, o.validated), o);
    }
  }

  lemma {:induction false} OpenReturnsKeepsInv(s: State, o: Oracle)
    requires Inv(s)
    ensures Inv(OnOpenReturns(s, o))
  {
    if s.link.OpenReturned? {
      var e := C.StartSettled(if s.link.success then C.OpenedOn(o.port) else C.OpenFailed(o.failure));
      C.StepKeepsInv(s.c, e);
      DriveKeepsInv(s, e, o);
    }
  }

  lemma {:induction false} ExitKeepsLifecycle(l: L.Lifecycle, i: nat)
    requires LifecycleInv(l) && i < |l.generations| && l.generations[i].Alive()
    ensures var (l', unexpected) := L.Exit(l, i);
            && LifecycleInv(l')
            && l.current == Some(i)
            && |l'.generations| == |l.generations|
            && l'.generations[i].stopping == l.generations[i].stopping
            && l'.generations[i].ready == l.generations[i].ready
            && (unexpected <==> !l.generations[i].stopping)
            && (if unexpected || l.generations[i].failure.Some? then l'.current == Some(i)
                else l'.current.None? && Gone(l'.generations[i]))
            && (l.generations[i].failure.Some? ==> l'.generations[i].failure.Some?)
  {
  }

  lemma {:induction false} ExitKeepsInv(s: State, i: nat, failure: C.Failure)
    requires Inv(s)
    ensures Inv(OnProcessExits(s, i, failure))
  {
    if i < |s.l.generations| && s.l.generations[i].Alive() {
      ExitKeepsLifecycle(s.l, i);
      C.MarkKeepsInv(s.c, failure);
    }
  }

  lemma {:induction false} FailKeepsInv(s: State, i: nat, killThrows: bool)
    requires Inv(s)
    ensures Inv(OnProcessFails(s, i, killThrows))
  {
  }

  lemma {:induction false} RestorationKeepsInv(s: State, outcome: B.Outcome)
    requires Inv(s)
    ensures Inv(OnReadinessSettles(s)) && Inv(OnRestorationEnds(s, outcome)) && Inv(OnRestorationSettles(s))
  {
  }

  lemma {:induction false} AnnounceKeepsInv(s: State, i: nat)
    requires Inv(s) && i < |s.l.generations|
    ensures Inv(s.(l := L.Announce(s.l, i)))
  {
  }

  lemma {:induction false} CleanupTimeoutKeepsInv(s: State, i: nat)
    requires Inv(s) && i < |s.l.generations|
    ensures Inv(s.(l := L.CleanupTimeout(s.l, i)))
  {
  }

  lemma {:induction false} StepKeepsInv(s: State, e: Event)
    requires Inv(s)
    ensures Inv(Step(s, e))
  {
    match e
    case Coordinator(ev, o) => if SettlesNoRuntimePromise(ev) { CoordinatorKeepsInv(s, ev, o); }
    case StopSettles(o) => StopSettlesKeepsInv(s, o);
    case ReadinessSettles => RestorationKeepsInv(s, B.Error);
    case RestorationEnds(outcome) => RestorationKeepsInv(s, outcome);
    case RestorationSettles => RestorationKeepsInv(s, B.Error);
    case OpenReturns(o) => OpenReturnsKeepsInv(s, o);
    case ProcessExits(i, f) => ExitKeepsInv(s, i, f);
    case ProcessFails(i, k) => FailKeepsInv(s, i, k);
    case PortAnnounced(i) => if i < |s.l.generations| { AnnounceKeepsInv(s, i); }
    case CleanupTimerFires(i) => if i < |s.l.generations| { CleanupTimeoutKeepsInv(s, i); }
  }

  function Run(s: State, es: seq<Event>): (r: State)
    requires Inv(s)
    ensures Inv(r)
    decreases |es|
  {
    if es == [] then s else
    StepKeepsInv(s, es[0]);
    Run(Step(s, es[0]), es[1..])
  }

  lemma {:induction false} InitInv()
    ensures Inv(Init())
  {
    C.RunKeepsInv(None, []);
  }

  /** The states that some interleaving of events leads to. */
  ghost predicate Reachable(s: State) {
    InitInv();
    exists es :: s == Run(Init(), es)
  }

  lemma {:induction false} ReachableInv(s: State)
    requires Reachable(s)
    ensures Inv(s)
  {
  }

  // ---------- Main results ----------

  /** At most one sidecar process is alive at any time. */
  lemma {:induction false} OneProcess(s: State)
    requires Reachable(s)
    ensures forall i, j :: 0 <= i < j < |s.l.generations| ==> !s.l.generations[i].Alive() || !s.l.generations[j].Alive()
  {
    ReachableInv(s);
  }

  lemma {:induction false} SettlingPublishesNoReady(c: C.State, e: C.Event)
    requires !SettlesNoRuntimePromise(e)
    ensures Readies(C.Step(c, e)) == Readies(c)
  {
    match e
    case CleanupSettled(settled, validated) => CleanupPublishesNoReady(c, settled, validated);
    case _ =>
  }

  lemma {:induction false} CleanupPublishesNoReady(c: C.State, settled: C.Settled, validated: Option<C.Path>)
    ensures Readies(C.OnCleanupSettled(c, settled, validated)) == Readies(c)
  {
    if settled.Resolved? && c.pc.RetryCleaning? && c.last.Some? {
      SwitchShape(C.CleanedUp(c), c.last.value, validated);
    }
  }

  /** How one step changes the number of published `ready` events. */
  lemma {:induction false} ReadyStep(s: State, e: Event)
    requires Inv(s)
    ensures Readies(Step(s, e).c) ==
            Readies(s.c) + if e.Coordinator? && e.event.Remembered? && PublishesReady(s.c) then 1 else 0
  {
    if e.Coordinator? && SettlesNoRuntimePromise(e.event) {
      if !e.event.Remembered? { QuietShape(s.c, e.event); }
    } else {
      var c' := Step(s, e).c;
      if c' != s.c {
        assert exists ev :: !SettlesNoRuntimePromise(ev) && c' == C.Step(s.c, ev) by { SettledStep(s, e); }
        var ev :| !SettlesNoRuntimePromise(ev) && c' == C.Step(s.c, ev);
        SettlingPublishesNoReady(s.c, ev);
      }
    }
  }

  /** Outside the coordinator's own events, it moves only by a settled promise or a mark. */
  lemma {:induction false} SettledStep(s: State, e: Event)
    requires s.Valid() && !(e.Coordinator? && SettlesNoRuntimePromise(e.event))
    requires Step(s, e).c != s.c
    ensures exists ev :: !SettlesNoRuntimePromise(ev) && Step(s, e).c == C.Step(s.c, ev)
  {
    match e
    case StopSettles(o) =>
      var settled := if StopOutcome(s.l, s.link.promise).value then C.Resolved else C.Rejected(o.failure);
      var ev := if s.c.pc.AwaitClose? then C.CloseSettled(settled) else C.CleanupSettled(settled, o.validated);
      assert !SettlesNoRuntimePromise(ev) && Drive(s, ev, o).c == C.Step(s.c, ev);
    case OpenReturns(o) =>
      var ev := C.StartSettled(if s.link.success then C.OpenedOn(o.port) else C.OpenFailed(o.failure));
      assert !SettlesNoRuntimePromise(ev) && Drive(s, ev, o).c == C.Step(s.c, ev);
    case ProcessExits(i, f) =>
      assert !SettlesNoRuntimePromise(C.Mark(f)) && Step(s, e).c == C.Step(s.c, C.Mark(f));
    case _ =>
  }

  /** `ready` is published only for a process that announced its port and has not exited, with nothing latched. */
  lemma {:induction false} ReadyMeansAlive(s: State, e: Event)
    requires Reachable(s) && s.Valid()
    ensures Readies(Step(s, e).c) > Readies(s.c) ==> s.c.latch.None? && CurrentIsReady(s.l)
  {
    ReachableInv(s);
    ReadyStep(s, e);
  }

  predicate CurrentIsReady(l: L.Lifecycle)
    requires l.Valid()
  {
    l.current.Some? && var g := l.generations[l.current.value]; g.Alive() && g.ready && !g.stopping
  }

  /** Some generation's cleanup has settled with a failure. */
  ghost predicate Poisoned(s: State) {
    exists i :: 0 <= i < |s.l.generations| && s.l.generations[i].failure.Some?
  }

  /** Only the current generation can have failed, since a replaced one was confirmed gone. */
  lemma {:induction false} PoisonedIsCurrent(s: State)
    requires Inv(s)
    ensures Poisoned(s) <==> s.l.current.Some? && s.l.generations[s.l.current.value].failure.Some?
  {
  }

  /** Whatever the coordinator does, a failed generation is neither stopped nor replaced. */
  lemma {:induction false} PoisonedCoordinator(s: State, e: C.Event, o: Oracle)
    requires Inv(s) && Poisoned(s) && SettlesNoRuntimePromise(e)
    ensures Drive(s, e, o).l == s.l
    ensures s.c.latch.Some? ==> Drive(s, e, o).c.latch.Some?
  {
    PoisonedIsCurrent(s);
    if !e.Remembered? { QuietShape(s.c, e); }
  }

  lemma {:induction false} PoisonedSettling(s: State, o: Oracle)
    requires Inv(s) && Poisoned(s)
    ensures OnStopSettles(s, o).l == s.l && OnOpenReturns(s, o).l == s.l
    ensures s.c.latch.Some? ==> OnStopSettles(s, o).c.latch.Some? && OnOpenReturns(s, o).c.latch.Some?
  {
    PoisonedIsCurrent(s);
    if s.link.Stopping? && StopOutcome(s.l, s.link.promise) == Some(true) { ResolvedStopMeansGone(s); }
  }

  /** A settled failure stays, and nothing is spawned. */
  lemma {:induction false} PoisonedStep(s: State, e: Event)
    requires Inv(s) && Poisoned(s)
    ensures Poisoned(Step(s, e))
    ensures |Step(s, e).l.generations| == |s.l.generations|
    ensures s.c.latch.Some? ==> Step(s, e).c.latch.Some?
  {
    match e
    case Coordinator(ev, o) => if SettlesNoRuntimePromise(ev) { PoisonedCoordinator(s, ev, o); }
    case StopSettles(o) => PoisonedSettling(s, o);
    case OpenReturns(o) => PoisonedSettling(s, o);
    case _ =>
      PoisonedIsCurrent(s);
      assert Step(s, e).l.generations[s.l.current.value].failure.Some?;
  }

  lemma {:induction false} PoisonedRun(s: State, more: seq<Event>)
    requires Inv(s) && Poisoned(s)
    ensures Poisoned(Run(s, more))
    ensures |Run(s, more).l.generations| == |s.l.generations|
    decreases |more|
  {
    if more != [] {
      StepKeepsInv(s, more[0]);
      PoisonedStep(s, more[0]);
      PoisonedRun(Step(s, more[0]), more[1..]);
    }
  }

  /** Once any cleanup has settled with a failure, no process is ever spawned again. */
  lemma {:induction false} NoSpawnAfterFailure(s: State, more: seq<Event>)
    requires Reachable(s) && Inv(s) && Poisoned(s)
    ensures |Run(s, more).l.generations| == |s.l.generations|
  {
    PoisonedRun(s, more);
  }

  /**
   The failure was not latched and the opening has already been returned by the runtime:
   what is left of it can still run to completion.
   */
  predicate Escapes(s: State) {
    && s.c.latch.None?
    && (s.c.pc.Remembering? || (s.c.pc.AwaitStart? && s.link == OpenReturned(true)))
    && s.c.pc.next == s.c.generation
  }

  /** Escaping takes a kill that threw inside the failure handler of a process that had announced its port. */
  lemma {:induction false} EscapingFailureIsAKillError(s: State)
    requires Inv(s) && Poisoned(s) && Escapes(s)
    ensures s.l.current.Some?
    ensures var g := s.l.generations[s.l.current.value];
            g.failure == Some(L.KillFailedInFail) && g.ready && g.Alive()
  {
    PoisonedIsCurrent(s);
    var g := s.l.generations[s.l.current.value];
    assert Running(s) && GoodGeneration(g);
    match g.failure.value
    case UnexpectedExit =>
    case _ =>
  }

  lemma {:induction false} NoEscapeByCoordinator(s: State, e: C.Event, o: Oracle)
    requires Inv(s) && Poisoned(s) && !Escapes(s) && s.c.latch.None? && SettlesNoRuntimePromise(e)
    ensures !Escapes(Drive(s, e, o))
  {
    PoisonedIsCurrent(s);
    if !e.Remembered? { QuietShape(s.c, e); }
  }

  lemma {:induction false} NoEscapeBySettling(s: State, o: Oracle)
    requires Inv(s) && Poisoned(s) && !Escapes(s) && s.c.latch.None?
    ensures !Escapes(OnStopSettles(s, o))
    ensures !Escapes(OnOpenReturns(s, o))
  {
    PoisonedIsCurrent(s);
    if s.link.Stopping? && StopOutcome(s.l, s.link.promise) == Some(true) { ResolvedStopMeansGone(s); }
  }

  /** A generation that failed while it was not being stopped has rejected its readiness or was ready. */
  lemma {:induction false} FailedWhileRunning(s: State)
    requires Inv(s) && Poisoned(s) && Running(s)
    ensures s.l.generations[s.l.current.value].failed
  {
    PoisonedIsCurrent(s);
    var g := s.l.generations[s.l.current.value];
    assert GoodGeneration(g);
    match g.failure.value
    case UnexpectedExit =>
    case _ =>
  }

  lemma {:induction false} NoEscapeByProcess(s: State, e: Event)
    requires Inv(s) && Poisoned(s) && !Escapes(s) && s.c.latch.None?
    requires !e.Coordinator? && !e.StopSettles? && !e.OpenReturns?
    ensures !Escapes(Step(s, e))
  {
    PoisonedIsCurrent(s);
    if s.c.pc.AwaitStart? { FailedWhileRunning(s); }
  }

  lemma {:induction false} NoEscapeStep(s: State, e: Event)
    requires Inv(s) && Poisoned(s) && !Escapes(s)
    ensures !Escapes(Step(s, e))
    ensures Readies(Step(s, e).c) == Readies(s.c)
  {
    PoisonedStep(s, e);
    ReadyStep(s, e);
    if s.c.latch.None? {
      match e
      case Coordinator(ev, o) => if SettlesNoRuntimePromise(ev) { NoEscapeByCoordinator(s, ev, o); }
      case StopSettles(o) => NoEscapeBySettling(s, o);
      case OpenReturns(o) => NoEscapeBySettling(s, o);
      case _ => NoEscapeByProcess(s, e);
    }
  }

  lemma {:induction false} NoEscapeRun(s: State, more: seq<Event>)
    requires Inv(s) && Poisoned(s) && !Escapes(s)
    ensures Readies(Run(s, more).c) == Readies(s.c)
    decreases |more|
  {
    if more != [] {
      StepKeepsInv(s, more[0]);
      PoisonedStep(s, more[0]);
      NoEscapeStep(s, more[0]);
      NoEscapeRun(Step(s, more[0]), more[1..]);
    }
  }

  /** What is left of an escaping opening. */
  function Completion(s: State, o: Oracle): seq<Event> {
    var last := [Coordinator(C.Remembered, o)];
    if s.c.pc.Remembering? then last else [OpenReturns(o)] + last
  }

  lemma {:induction false} RunStep(s: State, es: seq<Event>)
    requires Inv(s) && es != []
    ensures Inv(Step(s, es[0])) && Run(s, es) == Run(Step(s, es[0]), es[1..])
  {
    StepKeepsInv(s, es[0]);
  }

  lemma {:induction false} EscapeRuns(s: State, o: Oracle)
    requires Inv(s) && Escapes(s)
    ensures Readies(Run(s, Completion(s, o)).c) == Readies(s.c) + 1
    decreases s.c.pc.AwaitStart?
  {
    var es := Completion(s, o);
    RunStep(s, es);
    var s1 := Step(s, es[0]);
    ReadyStep(s, es[0]);
    if s.c.pc.Remembering? {
      assert Run(s1, []) == s1;
    } else {
      assert Escapes(s1) && es[1..] == Completion(s1, o);
      EscapeRuns(s1, o);
    }
  }

  /**
   Exactly when `ready` is published after a cleanup has settled with a failure: when
   the runtime had already returned the opening and the failure was not latched.
   */
  lemma {:induction false} ReadyAfterFailureIff(s: State)
    requires Reachable(s) && Inv(s) && Poisoned(s)
    ensures (exists more :: Readies(Run(s, more).c) > Readies(s.c)) <==> Escapes(s)
  {
    if Escapes(s) {
      var o := Oracle(None, false, false, C.Failure("", ""), 1);
      EscapeRuns(s, o);
      assert Readies(Run(s, Completion(s, o)).c) > Readies(s.c);
    } else {
      forall more ensures Readies(Run(s, more).c) == Readies(s.c) { NoEscapeRun(s, more); }
    }
  }

  // ---------- With the history saved synchronously ----------

  /**
   The main process saves the history without awaiting anything, so between the return
   of an opening and the publication of `ready` no process and no timer gets a turn.
   */
  predicate Prompt(s: State, e: Event) {
    s.link.OpenReturned? || s.c.pc.Remembering? ==> !e.ProcessExits? && !e.ProcessFails? && !e.CleanupTimerFires?
  }

  ghost predicate PromptRun(s: State, es: seq<Event>)
    requires Inv(s)
    decreases |es|
  {
    StepKeepsInv(s, if es == [] then ReadinessSettles else es[0]);
    es == [] || (Prompt(s, es[0]) && PromptRun(Step(s, es[0]), es[1..]))
  }

  lemma {:induction false} PoisonByCoordinator(s: State, e: C.Event, o: Oracle)
    requires Inv(s) && !Poisoned(s)
    ensures Poisoned(Drive(s, e, o)) ==> !Escapes(Drive(s, e, o))
  {
  }

  lemma {:induction false} PoisonByProcess(s: State, e: Event)
    requires Inv(s) && !Poisoned(s) && Prompt(s, e) && !e.Coordinator? && !e.StopSettles? && !e.OpenReturns?
    ensures Poisoned(Step(s, e)) ==> !Escapes(Step(s, e))
  {
  }

  lemma {:induction false} PromptStep(s: State, e: Event)
    requires Inv(s) && Prompt(s, e) && (Poisoned(s) ==> !Escapes(s))
    ensures Poisoned(Step(s, e)) ==> !Escapes(Step(s, e))
  {
    if Poisoned(s) {
      NoEscapeStep(s, e);
    } else {
      match e
      case Coordinator(ev, o) => PoisonByCoordinator(s, ev, o);
      case StopSettles(o) =>
        if s.link.Stopping? && StopOutcome(s.l, s.link.promise).Some? {
          var settled := if StopOutcome(s.l, s.link.promise).value then C.Resolved else C.Rejected(o.failure);
          PoisonByCoordinator(s, if s.c.pc.AwaitClose? then C.CloseSettled(settled) else C.CleanupSettled(settled, o.validated), o);
        }
      case OpenReturns(o) =>
        if s.link.OpenReturned? {
          PoisonByCoordinator(s, C.StartSettled(if s.link.success then C.OpenedOn(o.port) else C.OpenFailed(o.failure)), o);
        }
      case _ => PoisonByProcess(s, e);
    }
  }

  lemma {:induction false} PromptRunNeverEscapes(s: State, es: seq<Event>)
    requires Inv(s) && PromptRun(s, es) && (Poisoned(s) ==> !Escapes(s))
    ensures Poisoned(Run(s, es)) ==> !Escapes(Run(s, es))
    decreases |es|
  {
    if es != [] {
      StepKeepsInv(s, es[0]);
      PromptStep(s, es[0]);
      PromptRunNeverEscapes(Step(s, es[0]), es[1..]);
    }
  }

  ghost function FromStart(es: seq<Event>): (s: State)
    ensures Inv(s)
  {
    InitInv();
    Run(Init(), es)
  }

  ghost predicate PromptFromStart(es: seq<Event>) {
    InitInv();
    PromptRun(Init(), es)
  }

  /** As wired: once any generation's cleanup has settled with a failure, nothing is spawned and no `ready` is published again. */
  lemma {:induction false} NothingAfterFailure(before: seq<Event>, after: seq<Event>)
    requires PromptFromStart(before) && Poisoned(FromStart(before))
    ensures var s := FromStart(before);
            && Readies(Run(s, after).c) == Readies(s.c)
            && |Run(s, after).l.generations| == |s.l.generations|
  {
    InitInv();
    PromptRunNeverEscapes(Init(), before);
    NoEscapeRun(Run(Init(), before), after);
    PoisonedRun(Run(Init(), before), after);
  }

  // ---------- Without that ----------

  lemma {:induction false} ReachableStep(s: State, e: Event)
    requires Reachable(s) && Inv(s)
    ensures Reachable(Step(s, e)) && Inv(Step(s, e))
  {
    InitInv();
    var es :| s == Run(Init(), es);
    StepKeepsInv(s, e);
    RunSnoc(Init(), es, e);
    assert Step(s, e) == Run(Init(), es + [e]);
  }

  lemma {:induction false} RunSnoc(s: State, es: seq<Event>, e: Event)
    requires Inv(s)
    ensures Run(s, es + [e]) == Step(Run(s, es), e)
    decreases |es|
  {
    RunStep(s, es + [e]);
    if es == [] {
      assert (es + [e])[1..] == [];
    } else {
      assert (es + [e])[1..] == es[1..] + [e];
      RunStep(s, es);
      RunSnoc(Step(s, es[0]), es[1..], e);
    }
  }

  const SampleOracle := Oracle(None, false, false, C.Failure("", ""), 1)

  /** A first switch, queued. */
  lemma {:induction false} SomeCall() returns (s: State)
    ensures Reachable(s) && Inv(s)
    ensures s.c == C.Init(None).(queue := [C.Switch("/w")])
    ensures s.l == L.Fresh && s.r == B.Fresh && s.link == NoLink
  {
    InitInv();
    assert Init() == Run(Init(), []);
    var call := Coordinator(C.Call(C.Switch("/w")), SampleOracle);
    ReachableStep(Init(), call);
    s := Step(Init(), call);
  }

  /** It has nothing to close. */
  lemma {:induction false} SomeSwitch() returns (s: State)
    ensures Reachable(s) && Inv(s)
    ensures s.c.pc == C.CloseReturned(true, 1, C.ForSwitch("/w")) && s.c.generation == 1 && s.c.latch.None?
    ensures s.l == L.Fresh && s.r == B.Fresh && s.link == NoLink
  {
    s := SomeCall();
    var begin := Coordinator(C.Begin(Some("/w")), SampleOracle);
    ReachableStep(s, begin);
    s := Step(s, begin);
  }

  /** A reachable state in which a first opening waits for the readiness of a running process. */
  lemma {:induction false} SomeOpening() returns (s: State)
    ensures Reachable(s) && Inv(s)
    ensures s.c.pc == C.AwaitStart("/w", 1) && s.c.generation == 1 && s.c.latch.None?
    ensures s.l == L.Fresh.(generations := [L.Generation(true, false, false, false, false, false, false, None)], current := Some(0))
    ensures s.r == B.Restoration([B.Generation(false, false, false)], Some(0), false)
    ensures s.link == AwaitReadiness(L.OnReadiness(0))
  {
    s := SomeSwitch();
    ReachableStep(s, Coordinator(C.CloseResumed, SampleOracle));
    s := Step(s, Coordinator(C.CloseResumed, SampleOracle));
  }

  /** The same opening, ready and restored. */
  lemma {:induction false} SomeRestored() returns (s: State)
    ensures Reachable(s) && Inv(s)
    ensures s.c.pc == C.AwaitStart("/w", 1) && s.c.generation == 1 && s.c.latch.None?
    ensures s.l == L.Fresh.(generations := [L.Generation(true, true, false, false, false, false, false, None)], current := Some(0))
    ensures s.r == B.Restoration([B.Generation(true, true, false)], Some(0), true)
    ensures s.link == AwaitReadiness(L.OnReadiness(0))
  {
    s := SomeOpening();
    ReachableStep(s, PortAnnounced(0));
    s := Step(s, PortAnnounced(0));
    ReachableStep(s, RestorationEnds(B.Workspace));
    s := Step(s, RestorationEnds(B.Workspace));
  }

  /** The same opening, returned by the runtime. */
  lemma {:induction false} SomeReturned() returns (s: State)
    ensures Reachable(s) && Inv(s)
    ensures s.c.pc == C.AwaitStart("/w", 1) && s.c.generation == 1 && s.c.latch.None?
    ensures s.l == L.Fresh.(generations := [L.Generation(true, true, false, false, false, false, false, None)], current := Some(0))
    ensures s.link == OpenReturned(true)
  {
    s := SomeRestored();
    ReachableStep(s, ReadinessSettles);
    s := Step(s, ReadinessSettles);
    assert s.link == Restoring(0);
    ReachableStep(s, RestorationSettles);
    s := Step(s, RestorationSettles);
  }

  /** The same opening, while the history is being saved. */
  lemma {:induction false} SomeRemembering() returns (s: State)
    ensures Reachable(s) && Inv(s)
    ensures s.c.pc == C.Remembering("/w", 1, 1) && s.c.generation == 1 && s.c.latch.None?
    ensures s.l == L.Fresh.(generations := [L.Generation(true, true, false, false, false, false, false, None)], current := Some(0))
  {
    s := SomeReturned();
    ReachableStep(s, OpenReturns(SampleOracle));
    s := Step(s, OpenReturns(SampleOracle));
  }

  /** Were the history saved asynchronously: the process reports an error meanwhile, and `kill` throws. */
  lemma {:induction false} ReadyAfterFailureHappens()
    ensures exists s :: Reachable(s) && Inv(s) && Poisoned(s) && Escapes(s)
  {
    var s := SomeRemembering();
    ReachableStep(s, ProcessFails(0, true));
    var s' := Step(s, ProcessFails(0, true));
    assert s'.l.generations[0].failure.Some?;
    assert Poisoned(s') && Escapes(s');
  }
}
