/**
 The workspace switch coordinator as a state machine. Operations are serialised
 through a promise tail, so at most one of them runs; `markUnresolved` is not
 serialised and may land at any await. Every code segment between two awaits is
 one atomic step, and the environment picks how each awaited promise settles.
 */
module WorkspaceSwitch {
  import opened Wrappers

  // ---------- Data ----------

  /** Workspace paths that the source treats as present: the empty string is falsy. */
  type Path = p: string | p != "" witness "/"

  datatype Failure = Failure(code: string, message: string)

  datatype InstanceState = Picker | Opening | Ready | Closing | Unresolved

  datatype Publication =
    | ToPicker(generation: nat, cause: Option<Failure>)
    | ToOpening(generation: nat, path: Path)
    | ToClosing(generation: nat, path: Path)
    | ToReady(generation: nat, path: Path, port: nat)
    | ToUnresolved(generation: nat, failure: Failure)

  /** What the coordinator was asked for and did to the outside world, oldest first. */
  datatype Effect =
    | Began(operation: Operation)                        // taken from the queue
    | Ended                                              // its promise settles
    | Chosen(path: Path)                                 // picked by the user
    | Validated(asked: Path, answer: Option<Path>)
    | UpdateCalled(previous: Option<Path>)
    | QuitCalled
    | CloseCalled
    | StartCalled(path: Path, generation: nat)
    | CleanupCalled
    | RuntimeGone                 // a close or a cleanup resolved
    | Published(publication: Publication)

  /**
   What a log says: whether every start so far was admissible, whether some started
   runtime has not been confirmed gone since, the generation of the last start, and
   how often `ready` was published.
   */
  datatype Facts = Facts(good: bool, outstanding: bool, lastStart: int, readies: nat)

  function After(f: Facts, e: Effect): Facts {
    match e
    case StartCalled(_, g) => Facts(f.good && !f.outstanding && f.lastStart < g, true, g, f.readies)
    case RuntimeGone => f.(outstanding := false)
    case Published(ToReady(_, _, _)) => f.(readies := f.readies + 1)
    case _ => f
  }

  /** A log together with its facts, kept up to date as effects are appended. */
  datatype Log = Log(effects: seq<Effect>, facts: Facts) {
    function Append(e: Effect): Log { Log(effects + [e], After(facts, e)) }
    ghost predicate Sound() { facts == FactsOf(effects) }
  }

  function FactsOf(log: seq<Effect>): Facts {
    if log == [] then Facts(true, false, -1, 0) else After(FactsOf(log[..|log| - 1]), log[|log| - 1])
  }

  /** A serialised request. */
  datatype Operation =
    | Switch(path: Path)
    | Pick
    | Retry
    | Update
    | Close
    | Quit

  /** Who awaits `closeCurrent`. */
  datatype Continuation =
    | ForSwitch(path: Path)
    | ForUpdate(previous: Path)
    | ForClose
    | ForQuit

  /** Where the running operation is suspended. */
  datatype Pc =
    | Idle
    | Picking
    | AwaitClose(next: nat, cont: Continuation)
    | CloseReturned(ok: bool, next: nat, cont: Continuation)
    | AwaitStart(path: Path, next: nat)
    | CleaningFailedStart(next: nat, cause: Failure)
    | CleaningSuperseded(next: nat)
    | Remembering(path: Path, next: nat, port: nat)
    | CleaningStale(next: nat)
    | RetryCleaning
    | Updating(previous: Option<Path>)
    | Quitting(next: nat)

  datatype State = State(
    pc: Pc,
    queue: seq<Operation>,
    phase: InstanceState,
    current: Option<Path>,
    last: Option<Path>,
    latch: Option<Failure>,
    generation: nat,
    log: Log)

  /** How an awaited runtime promise settled. */
  datatype Settled = Resolved | Rejected(failure: Failure)

  datatype StartOutcome = OpenedOn(port: nat) | OpenFailed(failure: Failure)

  /** `validated` is what `validateDestination` answers if the segment asks it. */
  datatype Event =
    | Call(operation: Operation)
    | Begin(validated: Option<Path>)
    | Mark(failure: Failure)
    | Picked(choice: Option<Path>, validated: Option<Path>)
    | CloseSettled(close: Settled)
    | CloseResumed
    | StartSettled(outcome: StartOutcome)
    | CleanupSettled(cleanup: Settled, validated: Option<Path>)
    | Remembered
    | UpdateSettled(ok: bool, validated: Option<Path>)
    | QuitSettled(quit: Settled)

  // ---------- Segments ----------

  function PhaseOf(p: Publication): InstanceState {
    match p
    case ToPicker(_, _) => Picker
    case ToOpening(_, _) => Opening
    case ToClosing(_, _) => Closing
    case ToReady(_, _, _) => Ready
    case ToUnresolved(_, _) => Unresolved
  }

  function Publish(s: State, p: Publication): State {
    s.(phase := PhaseOf(p), log := s.log.Append(Published(p)))
  }

  function Emit(s: State, e: Effect): State {
    s.(log := s.log.Append(e))
  }

  function Finish(s: State): State {
    Emit(s, Ended).(pc := Idle)
  }

  function CloseCurrent(s: State, next: nat, cont: Continuation): State {
    if s.current.None? then
      s.(pc := CloseReturned(true, next, cont))
    else
      Emit(Publish(s, ToClosing(next, s.current.value)), CloseCalled).(pc := AwaitClose(next, cont))
  }

  /** The destination asked for is validated unless a failure is latched. */
  function EnterSwitch(s: State, asked: Path, validated: Option<Path>): State {
    if s.latch.Some? then Finish(s) else
    var s1 := Emit(s, Validated(asked, validated));
    if validated.None? then
      Finish(s1)
    else
      CloseCurrent(s1.(generation := s1.generation + 1, last := validated),
                   s1.generation + 1, ForSwitch(validated.value))
  }

  function EnterClose(s: State, cont: Continuation): State
    requires cont.ForClose? || cont.ForQuit?
  {
    var next := s.generation + 1;
    var s1 := s.(generation := next);
    if s1.latch.Some? then
      Publish(s1, ToUnresolved(next, s1.latch.value)).(pc := CloseReturned(false, next, cont))
    else if s1.current.None? then
      Publish(s1, ToPicker(next, None)).(pc := CloseReturned(true, next, cont))
    else
      CloseCurrent(s1, next, cont)
  }

  function EnterUpdate(s: State): State {
    if s.latch.Some? then
      Finish(s)
    else if s.current.None? then
      Emit(s, UpdateCalled(None)).(pc := Updating(None))
    else
      CloseCurrent(s.(generation := s.generation + 1), s.generation + 1, ForUpdate(s.current.value))
  }

  function EnterRetry(s: State, validated: Option<Path>): State {
    if s.latch.Some? then
      Emit(s, CleanupCalled).(pc := RetryCleaning)
    else if s.last.None? then
      Finish(s)
    else
      EnterSwitch(s, s.last.value, validated)
  }

  /** Which close an operation waits for. */
  predicate Continues(operation: Operation, cont: Continuation) {
    match operation
    case Switch(_) | Pick | Retry => cont.ForSwitch?
    case Update => cont.ForUpdate? || cont.ForSwitch?
    case Close => cont.ForClose?
    case Quit => cont.ForQuit?
  }

  /** The first segment of each operation. */
  function Enter(s: State, operation: Operation, validated: Option<Path>): State {
    match operation
    case Switch(path) => EnterSwitch(s, path, validated)
    case Pick => s.(pc := Picking)
    case Retry => EnterRetry(s, validated)
    case Update => EnterUpdate(s)
    case Close => EnterClose(s, ForClose)
    case Quit => EnterClose(s, ForQuit)
  }

  function BeginOperation(s: State, validated: Option<Path>): State {
    if s.pc != Idle || s.queue == [] then s
    else Enter(Emit(s.(queue := s.queue[1..]), Began(s.queue[0])), s.queue[0], validated)
  }

  function OnCloseSettled(s: State, close: Settled): State {
    if !s.pc.AwaitClose? then s else
    match close
    case Rejected(f) =>
      Publish(s, ToUnresolved(s.pc.next, f)).(pc := CloseReturned(false, s.pc.next, s.pc.cont))
    case Resolved =>
      Publish(Emit(s, RuntimeGone).(current := None), ToPicker(s.pc.next, None))
        .(pc := CloseReturned(true, s.pc.next, s.pc.cont))
  }

  function OnCloseResumed(s: State): State {
    if !s.pc.CloseReturned? then s
    else if !s.pc.ok then Finish(s) else
    match s.pc.cont
    case ForSwitch(p) =>
      Emit(Publish(s, ToOpening(s.pc.next, p)), StartCalled(p, s.pc.next)).(pc := AwaitStart(p, s.pc.next))
    case ForUpdate(previous) => Emit(s, UpdateCalled(Some(previous))).(pc := Updating(Some(previous)))
    case ForClose => Finish(s)
    case ForQuit => Emit(s, QuitCalled).(pc := Quitting(s.pc.next))
  }

  function OnStartSettled(s: State, outcome: StartOutcome): State {
    if !s.pc.AwaitStart? then s else
    match outcome
    case OpenFailed(f) => Emit(s, CleanupCalled).(pc := CleaningFailedStart(s.pc.next, f))
    case OpenedOn(port) =>
      if s.pc.next != s.generation then
        Emit(s, CleanupCalled).(pc := CleaningSuperseded(s.pc.next))
      else
        s.(pc := Remembering(s.pc.path, s.pc.next, port))
  }

  /** The cleanups that follow an attempted start; only the failed start publishes the picker. */
  function AfterAttemptCleanup(s: State, next: nat, cause: Option<Failure>, cleanup: Settled): State {
    match cleanup
    case Rejected(f) => Finish(Publish(s.(latch := Some(f)), ToUnresolved(next, f)))
    case Resolved =>
      var s1 := Emit(s, RuntimeGone);
      if s1.latch.Some? then Finish(Publish(s1, ToUnresolved(s1.generation, s1.latch.value)))
      else if cause.Some? then Finish(Publish(s1, ToPicker(next, cause)))
      else Finish(s1)
  }

  /** After the cleanup of a retry has resolved. */
  function CleanedUp(s: State): State {
    Publish(Emit(s, RuntimeGone).(latch := None), ToPicker(s.generation, None))
  }

  function AfterRetryCleanup(s: State, cleanup: Settled, validated: Option<Path>): State {
    match cleanup
    case Rejected(f) => Finish(Publish(s.(latch := Some(f)), ToUnresolved(s.generation, f)))
    case Resolved =>
      var s1 := CleanedUp(s);
      if s1.last.None? then Finish(s1) else EnterSwitch(s1, s1.last.value, validated)
  }

  function OnCleanupSettled(s: State, cleanup: Settled, validated: Option<Path>): State {
    match s.pc
    case CleaningFailedStart(next, cause) => AfterAttemptCleanup(s, next, Some(cause), cleanup)
    case CleaningSuperseded(next) => AfterAttemptCleanup(s, next, None, cleanup)
    case CleaningStale(next) => AfterAttemptCleanup(s, next, None, cleanup)
    case RetryCleaning => AfterRetryCleanup(s, cleanup, validated)
    case _ => s
  }

  function OnRemembered(s: State): State {
    if !s.pc.Remembering? then s
    else if s.pc.next != s.generation || s.latch.Some? then
      Emit(s, CleanupCalled).(pc := CleaningStale(s.pc.next))
    else
      Finish(Publish(s.(current := Some(s.pc.path)), ToReady(s.pc.next, s.pc.path, s.pc.port)))
  }

  function OnUpdateSettled(s: State, ok: bool, validated: Option<Path>): State {
    if !s.pc.Updating? then s
    else if !ok && s.pc.previous.Some? && s.latch.None? then EnterSwitch(s, s.pc.previous.value, validated)
    else Finish(s)
  }

  function OnQuitSettled(s: State, quit: Settled): State {
    if !s.pc.Quitting? then s
    else if quit.Rejected? then Finish(Publish(s, ToUnresolved(s.pc.next, quit.failure)))
    else Finish(s)
  }

  function OnMark(s: State, f: Failure): State {
    var next := s.generation + 1;
    Publish(s.(generation := next, latch := Some(f)), ToUnresolved(next, f))
  }

  /** One atomic segment. An event that cannot happen now changes nothing. */
  function Step(s: State, e: Event): State {
    match e
    case Call(op) => s.(queue := s.queue + [op])
    case Begin(v) => BeginOperation(s, v)
    case Mark(f) => OnMark(s, f)
    case Picked(choice, v) =>
      if s.pc != Picking then s else if choice.None? then Finish(s) else EnterSwitch(Emit(s, Chosen(choice.value)), choice.value, v)
    case CloseSettled(c) => OnCloseSettled(s, c)
    case CloseResumed => OnCloseResumed(s)
    case StartSettled(o) => OnStartSettled(s, o)
    case CleanupSettled(c, v) => OnCleanupSettled(s, c, v)
    case Remembered => OnRemembered(s)
    case UpdateSettled(ok, v) => OnUpdateSettled(s, ok, v)
    case QuitSettled(q) => OnQuitSettled(s, q)
  }

  function NoLog(): Log { Log([], Facts(true, false, -1, 0)) }

  /** An initial workspace counts as a runtime that was started before the log began. */
  function Init(initial: Option<Path>): State {
    State(Idle, [], if initial.Some? then Ready else Picker, initial, initial, None, 0,
          if initial.Some? then NoLog().Append(StartCalled(initial.value, 0)) else NoLog())
  }

  function Run(s: State, es: seq<Event>): State {
    if es == [] then s else Step(Run(s, es[..|es| - 1]), es[|es| - 1])
  }

  // ---------- Safety: no start before every earlier runtime is gone ----------

  /** Between any two starts some close or cleanup resolved. */
  ghost predicate StartsAreSeparated(log: seq<Effect>) {
    forall i, j :: 0 <= i < j < |log| && log[i].StartCalled? && log[j].StartCalled? ==>
      exists k :: i < k < j && log[k].RuntimeGone?
  }

  /** Start generations strictly increase. */
  ghost predicate StartsIncrease(log: seq<Effect>) {
    forall i, j :: 0 <= i < j < |log| && log[i].StartCalled? && log[j].StartCalled? ==>
      log[i].generation < log[j].generation
  }

  lemma {:induction false} AppendEffect(log: seq<Effect>, e: Effect)
    ensures FactsOf(log + [e]) == After(FactsOf(log), e)
  {
    assert (log + [e])[..|log|] == log;
  }

  lemma {:induction false} NotOutstandingMeansGone(log: seq<Effect>, i: nat)
    requires !FactsOf(log).outstanding && i < |log| && log[i].StartCalled?
    ensures exists k :: i < k < |log| && log[k].RuntimeGone?
  {
    var n := |log| - 1;
    if !log[n].RuntimeGone? {
      NotOutstandingMeansGone(log[..n], i);
      var k :| i < k < n && log[..n][k].RuntimeGone?;
      assert log[k].RuntimeGone?;
    }
  }

  lemma {:induction false} GoodLogBoundsStarts(log: seq<Effect>, i: nat)
    requires FactsOf(log).good && i < |log| && log[i].StartCalled?
    ensures log[i].generation <= FactsOf(log).lastStart
  {
    var n := |log| - 1;
    if i < n { GoodLogBoundsStarts(log[..n], i); }
  }

  /** Any two starts of a good log, however far apart. */
  lemma {:induction false} GoodLogSeparates(log: seq<Effect>, i: nat, j: nat)
    requires FactsOf(log).good && i < j < |log| && log[i].StartCalled? && log[j].StartCalled?
    ensures exists k :: i < k < j && log[k].RuntimeGone?
    ensures log[i].generation < log[j].generation
  {
    var n := |log| - 1;
    if j < n {
      GoodLogSeparates(log[..n], i, j);
      var k :| i < k < j && log[..n][k].RuntimeGone?;
      assert log[k].RuntimeGone?;
    } else {
      NotOutstandingMeansGone(log[..n], i);
      GoodLogBoundsStarts(log[..n], i);
      var k :| i < k < n && log[..n][k].RuntimeGone?;
      assert log[k].RuntimeGone?;
    }
  }

  /** Where a started runtime may still be unconfirmed. */
  ghost predicate MayBeOutstanding(s: State) {
    match s.pc
    case AwaitStart(_, _) | CleaningFailedStart(_, _) | CleaningSuperseded(_)
       | Remembering(_, _, _) | CleaningStale(_) | RetryCleaning => true
    case AwaitClose(_, _) => s.current.Some?
    case CloseReturned(ok, _, _) => !ok && (s.current.Some? || s.latch.Some?)
    case Updating(_) => false
    case Quitting(_) => false
    case Idle | Picking => s.current.Some? || s.latch.Some?
  }

  ghost predicate Inv(s: State) {
    var f := s.log.facts;
    && s.log.Sound()
    && f.good
    && (f.outstanding ==> MayBeOutstanding(s))
    && f.lastStart <= s.generation
    && (s.pc.AwaitClose? || s.pc.CloseReturned? || s.pc.AwaitStart? || s.pc.Remembering? ==>
          s.pc.next <= s.generation)
    && (s.pc.AwaitClose? || s.pc.CloseReturned? ==> s.pc.cont.ForSwitch? ==> f.lastStart < s.pc.next)
    && (s.pc.AwaitClose? ==> s.current.Some?)
  }

  /** Between operations a runtime that may be outstanding is the current one or has been latched. */
  ghost predicate Accounted(s: State) {
    && s.log.Sound() && s.log.facts.good && s.log.facts.lastStart <= s.generation
    && (s.log.facts.outstanding ==> s.current.Some? || s.latch.Some?)
  }

  lemma {:induction false} EmitIsSound(s: State, e: Effect)
    requires s.log.Sound()
    ensures Emit(s, e).log.Sound()
  {
    AppendEffect(s.log.effects, e);
  }

  lemma {:induction false} CloseCurrentKeepsInv(s: State, next: nat, cont: Continuation)
    requires s.log.Sound() && s.log.facts.good && s.log.facts.lastStart < next <= s.generation
    requires s.log.facts.outstanding ==> s.current.Some?
    ensures Inv(CloseCurrent(s, next, cont))
  {
    if s.current.Some? {
      var p := Published(ToClosing(next, s.current.value));
      EmitIsSound(s, p);
      EmitIsSound(Publish(s, p.publication), CloseCalled);
    }
  }

  lemma {:induction false} EnterSwitchKeepsInv(s: State, asked: Path, validated: Option<Path>)
    requires Accounted(s)
    ensures Inv(EnterSwitch(s, asked, validated))
  {
    if s.latch.Some? {
      EmitIsSound(s, Ended);
    } else {
      EmitIsSound(s, Validated(asked, validated));
      var s1 := Emit(s, Validated(asked, validated));
      if validated.None? {
        EmitIsSound(s1, Ended);
      } else {
        CloseCurrentKeepsInv(s1.(generation := s1.generation + 1, last := validated),
                             s1.generation + 1, ForSwitch(validated.value));
      }
    }
  }

  lemma {:induction false} EnterUpdateKeepsInv(s: State)
    requires Inv(s) && s.pc == Idle
    ensures Inv(EnterUpdate(s))
  {
    if s.latch.Some? {
      EmitIsSound(s, Ended);
    } else if s.current.None? {
      EmitIsSound(s, UpdateCalled(None));
    } else {
      CloseCurrentKeepsInv(s.(generation := s.generation + 1), s.generation + 1, ForUpdate(s.current.value));
    }
  }

  lemma {:induction false} EnterRetryKeepsInv(s: State, validated: Option<Path>)
    requires Inv(s) && s.pc == Idle
    ensures Inv(EnterRetry(s, validated))
  {
    if s.latch.Some? {
      EmitIsSound(s, CleanupCalled);
    } else if s.last.Some? {
      EnterSwitchKeepsInv(s, s.last.value, validated);
    } else {
      EmitIsSound(s, Ended);
    }
  }

  /** Where closing gets to: a latched failure is shown again, nothing to close shows the picker. */
  lemma {:induction false} EnterCloseShape(s: State, cont: Continuation)
    requires cont.ForClose? || cont.ForQuit?
    ensures var t := EnterClose(s, cont);
            && t.generation == s.generation + 1 && t.latch == s.latch && t.current == s.current && t.last == s.last && t.queue == s.queue
            && t.phase == (if s.latch.Some? then Unresolved else if s.current.None? then Picker else Closing)
            && t.pc == (if s.latch.None? && s.current.Some? then AwaitClose(t.generation, cont) else CloseReturned(s.latch.None?, t.generation, cont))
            && t.log == (if s.latch.Some? then s.log.Append(Published(ToUnresolved(t.generation, s.latch.value)))
                         else if s.current.None? then s.log.Append(Published(ToPicker(t.generation, None)))
                         else s.log.Append(Published(ToClosing(t.generation, s.current.value))).Append(CloseCalled))
  {
  }

  lemma {:induction false} EnterCloseKeepsInv(s: State, cont: Continuation)
    requires Accounted(s)
    requires cont.ForClose? || cont.ForQuit?
    ensures Inv(EnterClose(s, cont))
  {
    var next := s.generation + 1;
    var s1 := s.(generation := next);
    if s.latch.Some? {
      EmitIsSound(s1, Published(ToUnresolved(next, s.latch.value)));
      assert EnterClose(s, cont) == Publish(s1, ToUnresolved(next, s.latch.value)).(pc := CloseReturned(false, next, cont));
    } else if s.current.None? {
      EmitIsSound(s1, Published(ToPicker(next, None)));
      assert EnterClose(s, cont) == Publish(s1, ToPicker(next, None)).(pc := CloseReturned(true, next, cont));
    } else {
      CloseCurrentKeepsInv(s1, next, cont);
      assert EnterClose(s, cont) == CloseCurrent(s1, next, cont);
    }
  }

  lemma {:induction false} EnterKeepsInv(s: State, operation: Operation, validated: Option<Path>)
    requires Inv(s) && s.pc == Idle
    ensures Inv(Enter(s, operation, validated))
  {
    match operation
    case Switch(path) => EnterSwitchKeepsInv(s, path, validated);
    case Pick =>
    case Retry => EnterRetryKeepsInv(s, validated);
    case Update => EnterUpdateKeepsInv(s);
    case Close => EnterCloseKeepsInv(s, ForClose);
    case Quit => EnterCloseKeepsInv(s, ForQuit);
  }

  lemma {:induction false} BeginKeepsInv(s: State, validated: Option<Path>)
    requires Inv(s)
    ensures Inv(BeginOperation(s, validated))
  {
    if s.pc == Idle && s.queue != [] {
      EmitIsSound(s, Began(s.queue[0]));
      EnterKeepsInv(Emit(s.(queue := s.queue[1..]), Began(s.queue[0])), s.queue[0], validated);
    }
  }

  lemma {:induction false} CloseSettledKeepsInv(s: State, close: Settled)
    requires Inv(s)
    ensures Inv(OnCloseSettled(s, close))
  {
    if s.pc.AwaitClose? {
      match close
      case Rejected(f) => EmitIsSound(s, Published(ToUnresolved(s.pc.next, f)));
      case Resolved =>
        EmitIsSound(s, RuntimeGone);
        EmitIsSound(Emit(s, RuntimeGone).(current := None), Published(ToPicker(s.pc.next, None)));
    }
  }

  lemma {:induction false} CloseResumedKeepsInv(s: State)
    requires Inv(s)
    ensures Inv(OnCloseResumed(s))
  {
    if s.pc.CloseReturned? && s.pc.ok {
      match s.pc.cont
      case ForSwitch(p) =>
        EmitIsSound(s, Published(ToOpening(s.pc.next, p)));
        var s1 := Publish(s, ToOpening(s.pc.next, p));
        AppendEffect(s1.log.effects, StartCalled(p, s.pc.next));
      case ForUpdate(previous) => EmitIsSound(s, UpdateCalled(Some(previous)));
      case ForClose => EmitIsSound(s, Ended);
      case ForQuit => EmitIsSound(s, QuitCalled);
    } else if s.pc.CloseReturned? {
      EmitIsSound(s, Ended);
    }
  }

  lemma {:induction false} AttemptCleanupKeepsInv(s: State, next: nat, cause: Option<Failure>, cleanup: Settled)
    requires s.log.Sound() && s.log.facts.good && s.log.facts.lastStart <= s.generation
    ensures Inv(AfterAttemptCleanup(s, next, cause, cleanup))
  {
    match cleanup
    case Rejected(f) => PublishAndFinish(s.(latch := Some(f)), ToUnresolved(next, f));
    case Resolved =>
      EmitIsSound(s, RuntimeGone);
      var s1 := Emit(s, RuntimeGone);
      if s1.latch.Some? {
        PublishAndFinish(s1, ToUnresolved(s1.generation, s1.latch.value));
      } else if cause.Some? {
        PublishAndFinish(s1, ToPicker(next, cause));
      } else {
        EmitIsSound(s1, Ended);
      }
  }

  lemma {:induction false} PublishAndFinish(s: State, p: Publication)
    requires s.log.Sound()
    ensures Finish(Publish(s, p)).log.Sound()
  {
    EmitIsSound(s, Published(p));
    EmitIsSound(Publish(s, p), Ended);
  }

  lemma {:induction false} CleanedUpIsAccounted(s: State)
    requires Inv(s)
    ensures Accounted(CleanedUp(s)) && !CleanedUp(s).log.facts.outstanding
  {
    EmitIsSound(s, RuntimeGone);
    EmitIsSound(Emit(s, RuntimeGone).(latch := None), Published(ToPicker(s.generation, None)));
  }

  lemma {:induction false} RetryCleanupKeepsInv(s: State, cleanup: Settled, validated: Option<Path>)
    requires Inv(s)
    ensures Inv(AfterRetryCleanup(s, cleanup, validated))
  {
    match cleanup
    case Rejected(f) => PublishAndFinish(s.(latch := Some(f)), ToUnresolved(s.generation, f));
    case Resolved =>
      CleanedUpIsAccounted(s);
      if s.last.Some? {
        EnterSwitchKeepsInv(CleanedUp(s), s.last.value, validated);
      } else {
        EmitIsSound(CleanedUp(s), Ended);
      }
  }

  lemma {:induction false} CleanupSettledKeepsInv(s: State, cleanup: Settled, validated: Option<Path>)
    requires Inv(s)
    ensures Inv(OnCleanupSettled(s, cleanup, validated))
  {
    match s.pc
    case CleaningFailedStart(next, cause) => AttemptCleanupKeepsInv(s, next, Some(cause), cleanup);
    case CleaningSuperseded(next) => AttemptCleanupKeepsInv(s, next, None, cleanup);
    case CleaningStale(next) => AttemptCleanupKeepsInv(s, next, None, cleanup);
    case RetryCleaning => RetryCleanupKeepsInv(s, cleanup, validated);
    case _ =>
  }

  lemma {:induction false} StartSettledKeepsInv(s: State, outcome: StartOutcome)
    requires Inv(s)
    ensures Inv(OnStartSettled(s, outcome))
  {
    EmitIsSound(s, CleanupCalled);
  }

  lemma {:induction false} RememberedKeepsInv(s: State)
    requires Inv(s)
    ensures Inv(OnRemembered(s))
  {
    if s.pc.Remembering? {
      if s.pc.next != s.generation || s.latch.Some? {
        EmitIsSound(s, CleanupCalled);
      } else {
        PublishAndFinish(s.(current := Some(s.pc.path)), ToReady(s.pc.next, s.pc.path, s.pc.port));
      }
    }
  }

  lemma {:induction false} MarkKeepsInv(s: State, f: Failure)
    requires Inv(s)
    ensures Inv(OnMark(s, f))
  {
    EmitIsSound(s, Published(ToUnresolved(s.generation + 1, f)));
  }

  lemma {:induction false} UpdateKeepsInv(s: State, ok: bool, validated: Option<Path>)
    requires Inv(s)
    ensures Inv(OnUpdateSettled(s, ok, validated))
  {
    if s.pc.Updating? {
      if !ok && s.pc.previous.Some? && s.latch.None? {
        EnterSwitchKeepsInv(s, s.pc.previous.value, validated);
      } else {
        EmitIsSound(s, Ended);
      }
    }
  }

  lemma {:induction false} QuitKeepsInv(s: State, quit: Settled)
    requires Inv(s)
    ensures Inv(OnQuitSettled(s, quit))
  {
    if s.pc.Quitting? {
      if quit.Rejected? {
        PublishAndFinish(s, ToUnresolved(s.pc.next, quit.failure));
      } else {
        EmitIsSound(s, Ended);
      }
    }
  }

  lemma {:induction false} PickedKeepsInv(s: State, choice: Option<Path>, validated: Option<Path>)
    requires Inv(s) && s.pc == Picking
    ensures Inv(Step(s, Picked(choice, validated)))
  {
    if choice.None? {
      EmitIsSound(s, Ended);
    } else {
      EmitIsSound(s, Chosen(choice.value));
      EnterSwitchKeepsInv(Emit(s, Chosen(choice.value)), choice.value, validated);
    }
  }

  lemma {:induction false} StepKeepsInv(s: State, e: Event)
    requires Inv(s)
    ensures Inv(Step(s, e))
  {
    match e
    case Call(_) =>
    case Begin(v) => BeginKeepsInv(s, v);
    case Mark(f) => MarkKeepsInv(s, f);
    case Picked(choice, v) => if s.pc == Picking { PickedKeepsInv(s, choice, v); }
    case CloseSettled(c) => CloseSettledKeepsInv(s, c);
    case CloseResumed => CloseResumedKeepsInv(s);
    case StartSettled(o) => StartSettledKeepsInv(s, o);
    case CleanupSettled(c, v) => CleanupSettledKeepsInv(s, c, v);
    case Remembered => RememberedKeepsInv(s);
    case UpdateSettled(ok, v) => UpdateKeepsInv(s, ok, v);
    case QuitSettled(q) => QuitKeepsInv(s, q);
  }

  lemma {:induction false} InitInv(initial: Option<Path>)
    ensures Inv(Init(initial))
  {
    AppendEffect([], StartCalled(if initial.Some? then initial.value else "/", 0));
    assert NoLog().Sound();
  }

  lemma {:induction false} RunKeepsInv(initial: Option<Path>, es: seq<Event>)
    ensures Inv(Run(Init(initial), es))
  {
    if es == [] {
      InitInv(initial);
    } else {
      RunKeepsInv(initial, es[..|es| - 1]);
      StepKeepsInv(Run(Init(initial), es[..|es| - 1]), es[|es| - 1]);
    }
  }

  lemma {:induction false} GoodLogIsOrdered(log: seq<Effect>)
    requires FactsOf(log).good
    ensures StartsAreSeparated(log) && StartsIncrease(log)
  {
    forall i, j | 0 <= i < j < |log| && log[i].StartCalled? && log[j].StartCalled?
      ensures (exists k :: i < k < j && log[k].RuntimeGone?) && log[i].generation < log[j].generation
    {
      GoodLogSeparates(log, i, j);
    }
  }

  /**
   Main result. Along every interleaving, between any two calls of `startRuntime`
   a close or a cleanup resolved, and start generations strictly increase.
   */
  lemma {:induction false} StartOnlyAfterEarlierRuntimesAreGone(initial: Option<Path>, es: seq<Event>)
    ensures StartsAreSeparated(Run(Init(initial), es).log.effects)
    ensures StartsIncrease(Run(Init(initial), es).log.effects)
  {
    RunKeepsInv(initial, es);
    GoodLogIsOrdered(Run(Init(initial), es).log.effects);
  }
}
