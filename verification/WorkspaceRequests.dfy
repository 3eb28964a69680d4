/**
 What the coordinator's log says about requests: which operation each effect serves.
 A view is read off the log effect by effect; it knows the operation under way, the
 destination validated for it, the workspace that was current when it began, and what
 it has done since. Every effect of every run is one that the operation under way calls
 for, and every operation ends as its own kind does.
 */
module WorkspaceRequests {
  import opened Wrappers
  import opened WorkspaceSwitch

  datatype View = View(
    good: bool,                        // every effect so far was called for
    serving: Option<Operation>,
    atBegan: Option<Path>,             // the current workspace when it began
    chosen: Option<Path>,
    destination: Option<Path>,         // the answer of its last validation
    last: Option<Path>,                // the last destination accepted
    current: Option<Path>,
    phase: InstanceState,
    closing: bool,                     // the runtime was last asked to close, and not to be cleaned up
    outstanding: bool,
    updated: bool,                     // since it began: the update ran,
    quit: bool,                        // the application was told to quit,
    picker: bool,                      // the picker was published,
    unresolved: bool)                  // a failure was published

  /** Operations that may start a runtime. */
  predicate Opens(operation: Option<Operation>) {
    operation.Some? && (operation.value.Switch? || operation.value.Pick? || operation.value.Retry? || operation.value.Update?)
  }

  /** Where an operation may leave the application. */
  predicate Final(phase: InstanceState) {
    phase == Picker || phase == Ready || phase == Unresolved
  }

  /** The destination that an operation asks to be validated. */
  predicate Asks(v: View, asked: Path) {
    v.serving.Some? &&
    match v.serving.value
    case Switch(path) => asked == path
    case Pick => v.chosen == Some(asked)
    case Retry => v.last == Some(asked)
    case Update => v.updated && v.atBegan == Some(asked)
    case Close => false
    case Quit => false
  }

  /** How an operation may end. */
  predicate EndsRight(v: View) {
    && v.serving.Some? && Final(v.phase)
    && match v.serving.value
       case Close => (v.picker || v.unresolved) && !v.quit && !v.updated
       case Quit => (v.quit || v.unresolved) && !v.updated
       case _ => !v.quit
  }

  /** Whether an effect is called for. */
  predicate CalledFor(v: View, e: Effect) {
    match e
    case Began(_) => v.serving.None?
    case Ended => EndsRight(v)
    case Chosen(_) => v.serving == Some(Pick)
    case Validated(asked, _) => Asks(v, asked)
    case UpdateCalled(previous) => v.serving == Some(Update) && previous == v.atBegan && !v.outstanding && !v.updated
    case QuitCalled => v.serving == Some(Quit) && v.picker && !v.outstanding && !v.quit
    case CloseCalled => v.serving.Some? && v.current.Some?
    case CleanupCalled => Opens(v.serving)
    case StartCalled(path, generation) =>
      if v.serving.None? then generation == 0 && v.last == Some(path)
      else Opens(v.serving) && v.destination == Some(path) && !v.outstanding
    case RuntimeGone => v.serving.Some?
    case Published(ToReady(_, path, _)) => Opens(v.serving) && v.destination == Some(path)
    case Published(ToOpening(_, path)) => Opens(v.serving) && v.destination == Some(path) && !v.outstanding
    case Published(ToClosing(_, path)) => v.serving.Some? && v.current == Some(path)
    case Published(_) => true
  }

  /** What a publication tells the user. */
  function Shown(p: Publication): InstanceState {
    match p
    case ToPicker(_, _) => Picker
    case ToOpening(_, _) => Opening
    case ToClosing(_, _) => Closing
    case ToReady(_, _, _) => Ready
    case ToUnresolved(_, _) => Unresolved
  }

  function See(v: View, e: Effect): View {
    View(
      v.good && CalledFor(v, e),
      if e.Began? then Some(e.operation) else if e.Ended? then None else v.serving,
      if e.Began? then v.current else v.atBegan,
      if e.Began? then None else if e.Chosen? then Some(e.path) else v.chosen,
      if e.Began? then None else if e.Validated? then e.answer else v.destination,
      if e.Validated? && e.answer.Some? then e.answer else v.last,
      if e.RuntimeGone? && v.closing then None else if e.Published? && e.publication.ToReady? then Some(e.publication.path) else v.current,
      if e.Published? then Shown(e.publication) else v.phase,
      if e.CloseCalled? then true else if e.CleanupCalled? then false else v.closing,
      if e.StartCalled? then true else if e.RuntimeGone? then false else v.outstanding,
      if e.Began? then false else v.updated || e.UpdateCalled?,
      if e.Began? then false else v.quit || e.QuitCalled?,
      if e.Began? then false else v.picker || (e.Published? && e.publication.ToPicker?),
      if e.Began? then false else v.unresolved || (e.Published? && e.publication.ToUnresolved?))
  }

  /** Before anything: the initial workspace, if any, is current and was the last destination. */
  function Outset(initial: Option<Path>): View {
    View(true, None, None, None, None, initial, initial, if initial.Some? then Ready else Picker, false, false, false, false, false, false)
  }

  function ViewOf(effects: seq<Effect>, initial: Option<Path>): View {
    if effects == [] then Outset(initial) else See(ViewOf(effects[..|effects| - 1], initial), effects[|effects| - 1])
  }

  function Seen(s: State, initial: Option<Path>): View {
    ViewOf(s.log.effects, initial)
  }

  lemma {:induction false} EmitSeen(s: State, e: Effect, initial: Option<Path>)
    ensures Seen(Emit(s, e), initial) == See(Seen(s, initial), e)
  {
    assert (s.log.effects + [e])[..|s.log.effects|] == s.log.effects;
  }

  // ---------- Where the operation is ----------

  predicate ContinuationFits(cont: Continuation, v: View) {
    match cont
    case ForSwitch(path) => Opens(v.serving) && v.destination == Some(path)
    case ForUpdate(previous) => v.serving == Some(Update) && v.atBegan == Some(previous) && !v.updated
    case ForClose => v.serving == Some(Close)
    case ForQuit => v.serving == Some(Quit)
  }

  /** Nothing but a mark, which latches, moves the generation while an opening is under way. */
  predicate Unless(s: State, next: nat) {
    next != s.generation ==> s.latch.Some?
  }

  predicate PointFits(s: State, v: View) {
    match s.pc
    case Idle => v.serving.None? && Final(s.phase)
    case Picking => v.serving == Some(Pick) && Final(s.phase)
    case AwaitClose(_, cont) => ContinuationFits(cont, v) && v.closing && !v.quit && (cont.ForSwitch? ==> Unless(s, s.pc.next))
    case CloseReturned(ok, next, cont) =>
      && ContinuationFits(cont, v) && Final(s.phase) && !v.quit
      && (cont.ForSwitch? ==> Unless(s, next))
      && (cont.ForClose? || cont.ForQuit? ==> (if ok then v.picker else v.unresolved))
    case AwaitStart(path, next) => Opens(v.serving) && v.destination == Some(path) && Unless(s, next)
    case CleaningFailedStart(_, _) => Opens(v.serving) && !v.closing
    case CleaningSuperseded(_) => Opens(v.serving) && !v.closing && s.latch.Some?
    case Remembering(path, next, _) => Opens(v.serving) && v.destination == Some(path) && Unless(s, next)
    case CleaningStale(_) => Opens(v.serving) && !v.closing && s.latch.Some?
    case RetryCleaning => v.serving == Some(Retry) && !v.closing
    case Updating(previous) => v.serving == Some(Update) && v.updated && previous == v.atBegan && Final(s.phase)
    case Quitting(_) => v.serving == Some(Quit) && v.quit && Final(s.phase)
  }

  predicate Quiet(v: View) {
    v.serving.Some? ==> (v.serving.value.Quit? || !v.quit) && (v.serving.value.Update? || !v.updated)
  }

  /** The fields and what is seen of them agree. */
  predicate Agrees(s: State, v: View) {
    && v.good && v.current == s.current && v.last == s.last && v.phase == s.phase
    && v.outstanding == s.log.facts.outstanding && Quiet(v)
  }

  predicate Linked(s: State, v: View) {
    Agrees(s, v) && PointFits(s, v)
  }

  // ---------- Every segment keeps them linked ----------

  lemma {:induction false} FinishLinks(s: State, initial: Option<Path>)
    requires Agrees(s, Seen(s, initial)) && EndsRight(Seen(s, initial))
    ensures Linked(Finish(s), Seen(Finish(s), initial))
  {
    EmitSeen(s, Ended, initial);
  }

  lemma {:induction false} PublishAgrees(s: State, p: Publication, initial: Option<Path>)
    requires Agrees(s, Seen(s, initial)) && !p.ToReady? && CalledFor(Seen(s, initial), Published(p))
    ensures var v := Seen(s, initial);
            var w := Seen(Publish(s, p), initial);
            Agrees(Publish(s, p), w) && w == v.(phase := Shown(p), picker := v.picker || p.ToPicker?, unresolved := v.unresolved || p.ToUnresolved?)
  {
    EmitSeen(s, Published(p), initial);
  }

  lemma {:induction false} CloseCurrentLinks(s: State, next: nat, cont: Continuation, initial: Option<Path>)
    requires Agrees(s, Seen(s, initial)) && ContinuationFits(cont, Seen(s, initial)) && !Seen(s, initial).quit && Final(s.phase)
    requires cont.ForSwitch? ==> Unless(s, next)
    requires cont.ForClose? || cont.ForQuit? ==> s.current.Some?
    ensures var t := CloseCurrent(s, next, cont); Linked(t, Seen(t, initial))
  {
    if s.current.Some? {
      var p := ToClosing(next, s.current.value);
      PublishAgrees(s, p, initial);
      EmitSeen(Publish(s, p), CloseCalled, initial);
    }
  }

  lemma {:induction false} EnterSwitchLinks(s: State, asked: Path, validated: Option<Path>, initial: Option<Path>)
    requires Agrees(s, Seen(s, initial)) && Asks(Seen(s, initial), asked) && !Seen(s, initial).quit && Final(s.phase)
    ensures var t := EnterSwitch(s, asked, validated); Linked(t, Seen(t, initial))
  {
    if s.latch.Some? {
      FinishLinks(s, initial);
    } else {
      EmitSeen(s, Validated(asked, validated), initial);
      var s1 := Emit(s, Validated(asked, validated));
      if validated.None? {
        FinishLinks(s1, initial);
      } else {
        var s2 := s1.(generation := s1.generation + 1, last := validated);
        assert Seen(s2, initial) == Seen(s1, initial);
        CloseCurrentLinks(s2, s2.generation, ForSwitch(validated.value), initial);
      }
    }
  }

  lemma {:induction false} EnterCloseLinks(s: State, cont: Continuation, initial: Option<Path>)
    requires Agrees(s, Seen(s, initial)) && (cont.ForClose? || cont.ForQuit?) && ContinuationFits(cont, Seen(s, initial))
    requires !Seen(s, initial).quit && Final(s.phase)
    ensures var t := EnterClose(s, cont); Linked(t, Seen(t, initial))
  {
    var next := s.generation + 1;
    var s1 := s.(generation := next);
    assert Seen(s1, initial) == Seen(s, initial);
    if s1.latch.Some? {
      CloseAnswered(s1, ToUnresolved(next, s1.latch.value), false, next, cont, initial);
      assert EnterClose(s, cont) == Publish(s1, ToUnresolved(next, s1.latch.value)).(pc := CloseReturned(false, next, cont));
    } else if s1.current.None? {
      CloseAnswered(s1, ToPicker(next, None), true, next, cont, initial);
      assert EnterClose(s, cont) == Publish(s1, ToPicker(next, None)).(pc := CloseReturned(true, next, cont));
    } else {
      CloseCurrentLinks(s1, next, cont, initial);
      assert EnterClose(s, cont) == CloseCurrent(s1, next, cont);
    }
  }

  /** A close or quit that is answered at once. */
  lemma {:induction false} CloseAnswered(s: State, p: Publication, ok: bool, next: nat, cont: Continuation, initial: Option<Path>)
    requires Agrees(s, Seen(s, initial)) && (cont.ForClose? || cont.ForQuit?) && ContinuationFits(cont, Seen(s, initial)) && !Seen(s, initial).quit
    requires if ok then p.ToPicker? else p.ToUnresolved?
    ensures var t := Publish(s, p).(pc := CloseReturned(ok, next, cont)); Linked(t, Seen(t, initial))
  {
    PublishAgrees(s, p, initial);
    assert Seen(Publish(s, p).(pc := CloseReturned(ok, next, cont)), initial) == Seen(Publish(s, p), initial);
  }

  lemma {:induction false} EnterUpdateLinks(s: State, initial: Option<Path>)
    requires Inv(s) && s.pc == Idle && Agrees(s, Seen(s, initial)) && Final(s.phase)
    requires var v := Seen(s, initial); v.serving == Some(Update) && v.atBegan == v.current && !v.updated && !v.quit
    ensures var t := EnterUpdate(s); Linked(t, Seen(t, initial))
  {
    if s.latch.Some? {
      FinishLinks(s, initial);
    } else if s.current.None? {
      EmitSeen(s, UpdateCalled(None), initial);
    } else {
      var s1 := s.(generation := s.generation + 1);
      assert Seen(s1, initial) == Seen(s, initial);
      CloseCurrentLinks(s1, s1.generation, ForUpdate(s.current.value), initial);
    }
  }

  lemma {:induction false} EnterRetryLinks(s: State, validated: Option<Path>, initial: Option<Path>)
    requires Agrees(s, Seen(s, initial)) && Final(s.phase) && Seen(s, initial).serving == Some(Retry)
    ensures var t := EnterRetry(s, validated); Linked(t, Seen(t, initial))
  {
    if s.latch.Some? {
      EmitSeen(s, CleanupCalled, initial);
    } else if s.last.None? {
      FinishLinks(s, initial);
    } else {
      EnterSwitchLinks(s, s.last.value, validated, initial);
    }
  }

  lemma {:induction false} BeginLinks(s: State, validated: Option<Path>, initial: Option<Path>)
    requires Inv(s) && Linked(s, Seen(s, initial))
    ensures var t := BeginOperation(s, validated); Linked(t, Seen(t, initial))
  {
    if s.pc == Idle && s.queue != [] {
      var operation := s.queue[0];
      var s0 := s.(queue := s.queue[1..]);
      assert Seen(s0, initial) == Seen(s, initial);
      EmitSeen(s0, Began(operation), initial);
      var s1 := Emit(s0, Began(operation));
      EmitIsSound(s, Began(operation));
      match operation
      case Switch(path) => EnterSwitchLinks(s1, path, validated, initial);
      case Pick =>
      case Retry => EnterRetryLinks(s1, validated, initial);
      case Update => EnterUpdateLinks(s1, initial);
      case Close => EnterCloseLinks(s1, ForClose, initial);
      case Quit => EnterCloseLinks(s1, ForQuit, initial);
    }
  }

  lemma {:induction false} PickedLinks(s: State, choice: Option<Path>, validated: Option<Path>, initial: Option<Path>)
    requires Linked(s, Seen(s, initial))
    ensures var t := Step(s, Picked(choice, validated)); Linked(t, Seen(t, initial))
  {
    if s.pc == Picking {
      if choice.None? {
        FinishLinks(s, initial);
      } else {
        EmitSeen(s, Chosen(choice.value), initial);
        EnterSwitchLinks(Emit(s, Chosen(choice.value)), choice.value, validated, initial);
      }
    }
  }

  lemma {:induction false} CloseSettledLinks(s: State, close: Settled, initial: Option<Path>)
    requires Linked(s, Seen(s, initial))
    ensures var t := OnCloseSettled(s, close); Linked(t, Seen(t, initial))
  {
    if s.pc.AwaitClose? {
      match close
      case Rejected(f) => PublishAgrees(s, ToUnresolved(s.pc.next, f), initial);
      case Resolved =>
        EmitSeen(s, RuntimeGone, initial);
        var s1 := Emit(s, RuntimeGone).(current := None);
        assert Seen(s1, initial) == Seen(Emit(s, RuntimeGone), initial);
        PublishAgrees(s1, ToPicker(s.pc.next, None), initial);
    }
  }

  lemma {:induction false} StartLinks(s: State, path: Path, next: nat, initial: Option<Path>)
    requires Agrees(s, Seen(s, initial)) && Opens(Seen(s, initial).serving) && Seen(s, initial).destination == Some(path)
    requires !s.log.facts.outstanding && Unless(s, next)
    ensures var t := Emit(Publish(s, ToOpening(next, path)), StartCalled(path, next)).(pc := AwaitStart(path, next)); Linked(t, Seen(t, initial))
  {
    var s1 := Publish(s, ToOpening(next, path));
    PublishAgrees(s, ToOpening(next, path), initial);
    EmitSeen(s1, StartCalled(path, next), initial);
    var t := Emit(s1, StartCalled(path, next)).(pc := AwaitStart(path, next));
    assert Seen(t, initial) == Seen(Emit(s1, StartCalled(path, next)), initial);
  }

  lemma {:induction false} CloseResumedLinks(s: State, initial: Option<Path>)
    requires Inv(s) && Linked(s, Seen(s, initial))
    ensures var t := OnCloseResumed(s); Linked(t, Seen(t, initial))
  {
    if s.pc.CloseReturned? {
      if !s.pc.ok {
        FinishLinks(s, initial);
      } else {
        match s.pc.cont
        case ForSwitch(p) => StartLinks(s, p, s.pc.next, initial);
        case ForUpdate(previous) => EmitSeen(s, UpdateCalled(Some(previous)), initial);
        case ForClose => FinishLinks(s, initial);
        case ForQuit => EmitSeen(s, QuitCalled, initial);
      }
    }
  }

  lemma {:induction false} StartSettledLinks(s: State, outcome: StartOutcome, initial: Option<Path>)
    requires Linked(s, Seen(s, initial))
    ensures var t := OnStartSettled(s, outcome); Linked(t, Seen(t, initial))
  {
    EmitSeen(s, CleanupCalled, initial);
  }

  lemma {:induction false} PublishAndFinishLinks(s: State, p: Publication, initial: Option<Path>)
    requires Agrees(s, Seen(s, initial)) && (p.ToPicker? || p.ToUnresolved?)
    requires var v := Seen(s, initial); (Opens(v.serving) && !v.quit) || (v.serving == Some(Quit) && p.ToUnresolved?)
    ensures var t := Finish(Publish(s, p)); Linked(t, Seen(t, initial))
  {
    PublishAgrees(s, p, initial);
    FinishLinks(Publish(s, p), initial);
  }

  lemma {:induction false} AttemptCleanupLinks(s: State, next: nat, cause: Option<Failure>, cleanup: Settled, initial: Option<Path>)
    requires Agrees(s, Seen(s, initial)) && Opens(Seen(s, initial).serving) && !Seen(s, initial).quit && !Seen(s, initial).closing
    requires cause.None? ==> s.latch.Some?
    ensures var t := AfterAttemptCleanup(s, next, cause, cleanup); Linked(t, Seen(t, initial))
  {
    match cleanup
    case Rejected(f) =>
      assert Seen(s.(latch := Some(f)), initial) == Seen(s, initial);
      PublishAndFinishLinks(s.(latch := Some(f)), ToUnresolved(next, f), initial);
    case Resolved =>
      EmitSeen(s, RuntimeGone, initial);
      var s1 := Emit(s, RuntimeGone);
      if s1.latch.Some? {
        PublishAndFinishLinks(s1, ToUnresolved(s1.generation, s1.latch.value), initial);
      } else {
        PublishAndFinishLinks(s1, ToPicker(next, cause), initial);
      }
  }

  lemma {:induction false} RetryCleanupLinks(s: State, cleanup: Settled, validated: Option<Path>, initial: Option<Path>)
    requires Linked(s, Seen(s, initial)) && s.pc.RetryCleaning?
    ensures var t := AfterRetryCleanup(s, cleanup, validated); Linked(t, Seen(t, initial))
  {
    match cleanup
    case Rejected(f) =>
      assert Seen(s.(latch := Some(f)), initial) == Seen(s, initial);
      PublishAndFinishLinks(s.(latch := Some(f)), ToUnresolved(s.generation, f), initial);
    case Resolved =>
      EmitSeen(s, RuntimeGone, initial);
      var s1 := Emit(s, RuntimeGone).(latch := None);
      assert Seen(s1, initial) == Seen(Emit(s, RuntimeGone), initial);
      PublishAgrees(s1, ToPicker(s.generation, None), initial);
      if s.last.None? {
        FinishLinks(CleanedUp(s), initial);
      } else {
        EnterSwitchLinks(CleanedUp(s), s.last.value, validated, initial);
      }
  }

  lemma {:induction false} CleanupSettledLinks(s: State, cleanup: Settled, validated: Option<Path>, initial: Option<Path>)
    requires Linked(s, Seen(s, initial))
    ensures var t := OnCleanupSettled(s, cleanup, validated); Linked(t, Seen(t, initial))
  {
    match s.pc
    case CleaningFailedStart(next, cause) => AttemptCleanupLinks(s, next, Some(cause), cleanup, initial);
    case CleaningSuperseded(next) => AttemptCleanupLinks(s, next, None, cleanup, initial);
    case CleaningStale(next) => AttemptCleanupLinks(s, next, None, cleanup, initial);
    case RetryCleaning => RetryCleanupLinks(s, cleanup, validated, initial);
    case _ =>
  }

  lemma {:induction false} RememberedLinks(s: State, initial: Option<Path>)
    requires Linked(s, Seen(s, initial))
    ensures var t := OnRemembered(s); Linked(t, Seen(t, initial))
  {
    if s.pc.Remembering? {
      if s.pc.next != s.generation || s.latch.Some? {
        EmitSeen(s, CleanupCalled, initial);
      } else {
        var p := ToReady(s.pc.next, s.pc.path, s.pc.port);
        var s1 := s.(current := Some(s.pc.path));
        assert Seen(s1, initial) == Seen(s, initial);
        EmitSeen(s1, Published(p), initial);
        FinishLinks(Publish(s1, p), initial);
      }
    }
  }

  lemma {:induction false} UpdateSettledLinks(s: State, ok: bool, validated: Option<Path>, initial: Option<Path>)
    requires Linked(s, Seen(s, initial))
    ensures var t := OnUpdateSettled(s, ok, validated); Linked(t, Seen(t, initial))
  {
    if s.pc.Updating? {
      if !ok && s.pc.previous.Some? && s.latch.None? {
        EnterSwitchLinks(s, s.pc.previous.value, validated, initial);
      } else {
        FinishLinks(s, initial);
      }
    }
  }

  lemma {:induction false} QuitSettledLinks(s: State, quit: Settled, initial: Option<Path>)
    requires Linked(s, Seen(s, initial))
    ensures var t := OnQuitSettled(s, quit); Linked(t, Seen(t, initial))
  {
    if s.pc.Quitting? {
      if quit.Rejected? {
        PublishAndFinishLinks(s, ToUnresolved(s.pc.next, quit.failure), initial);
      } else {
        FinishLinks(s, initial);
      }
    }
  }

  lemma {:induction false} MarkLinks(s: State, f: Failure, initial: Option<Path>)
    requires Linked(s, Seen(s, initial))
    ensures var t := OnMark(s, f); Linked(t, Seen(t, initial))
  {
    var next := s.generation + 1;
    var s1 := s.(generation := next, latch := Some(f));
    assert Seen(s1, initial) == Seen(s, initial);
    PublishAgrees(s1, ToUnresolved(next, f), initial);
    MarkFits(s, OnMark(s, f), Seen(s, initial), Seen(OnMark(s, f), initial));
  }

  /** A mark is no harm anywhere: it latches and shows a failure. */
  lemma {:induction false} MarkFits(s: State, t: State, v: View, w: View)
    requires PointFits(s, v) && t.pc == s.pc && t.latch.Some? && t.phase == Unresolved
    requires w == v.(phase := Unresolved, unresolved := true)
    ensures PointFits(t, w)
  {
  }

  lemma {:induction false} StepLinks(s: State, e: Event, initial: Option<Path>)
    requires Inv(s) && Linked(s, Seen(s, initial))
    ensures Linked(Step(s, e), Seen(Step(s, e), initial))
  {
    match e
    case Call(_) => assert Seen(Step(s, e), initial) == Seen(s, initial);
    case Begin(v) => BeginLinks(s, v, initial);
    case Mark(f) => MarkLinks(s, f, initial);
    case Picked(choice, v) => PickedLinks(s, choice, v, initial);
    case CloseSettled(c) => CloseSettledLinks(s, c, initial);
    case CloseResumed => CloseResumedLinks(s, initial);
    case StartSettled(o) => StartSettledLinks(s, o, initial);
    case CleanupSettled(c, v) => CleanupSettledLinks(s, c, v, initial);
    case Remembered => RememberedLinks(s, initial);
    case UpdateSettled(ok, v) => UpdateSettledLinks(s, ok, v, initial);
    case QuitSettled(q) => QuitSettledLinks(s, q, initial);
  }

  lemma {:induction false} RunLinks(initial: Option<Path>, es: seq<Event>)
    ensures Linked(Run(Init(initial), es), Seen(Run(Init(initial), es), initial))
  {
    if es == [] {
      InitLinks(initial);
    } else {
      RunLinks(initial, es[..|es| - 1]);
      RunKeepsInv(initial, es[..|es| - 1]);
      StepLinks(Run(Init(initial), es[..|es| - 1]), es[|es| - 1], initial);
    }
  }

  lemma {:induction false} InitLinks(initial: Option<Path>)
    ensures Linked(Init(initial), Seen(Init(initial), initial))
  {
    assert ViewOf([], initial) == Outset(initial);
    if initial.Some? {
      var start := StartCalled(initial.value, 0);
      assert Init(initial).log.effects == [start] && [start][..0] == [];
    }
  }

  // ---------- Every effect is called for ----------

  lemma {:induction false} SeeFields(v: View, e: Effect)
    ensures See(v, e).good <==> v.good && CalledFor(v, e)
    ensures See(v, e).serving == if e.Began? then Some(e.operation) else if e.Ended? then None else v.serving
    ensures See(v, e).outstanding == if e.StartCalled? then true else if e.RuntimeGone? then false else v.outstanding
  {
  }

  /** The view of a log, from that of all but its last effect. */
  lemma {:induction false} ViewFields(effects: seq<Effect>, initial: Option<Path>)
    requires effects != []
    ensures var n := |effects| - 1;
            var v, w, e := ViewOf(effects[..n], initial), ViewOf(effects, initial), effects[n];
            && (w.good <==> v.good && CalledFor(v, e))
            && w.serving == (if e.Began? then Some(e.operation) else if e.Ended? then None else v.serving)
            && w.outstanding == (if e.StartCalled? then true else if e.RuntimeGone? then false else v.outstanding)
  {
    SeeFields(ViewOf(effects[..|effects| - 1], initial), effects[|effects| - 1]);
  }

  lemma {:induction false} GoodPrefix(effects: seq<Effect>, initial: Option<Path>, k: nat)
    requires ViewOf(effects, initial).good && k < |effects|
    ensures CalledFor(ViewOf(effects[..k], initial), effects[k])
    decreases |effects|
  {
    var n := |effects| - 1;
    ViewFields(effects, initial);
    if k < n {
      GoodPrefix(effects[..n], initial, k);
      assert effects[..n][..k] == effects[..k];
    }
  }

  /** Every effect of a log is called for by the operation under way then. */
  ghost predicate AllCalledFor(effects: seq<Effect>, initial: Option<Path>) {
    forall k :: 0 <= k < |effects| ==> CalledFor(ViewOf(effects[..k], initial), effects[k])
  }

  /**
   In every run: a runtime is started for the destination last validated for the operation under
   way, which is the one its request names; the application is told to quit only by a quit whose
   close succeeded; and an operation ends, in picker, ready or unresolved, as its own kind does.
   */
  lemma {:induction false} EveryEffectIsCalledFor(initial: Option<Path>, es: seq<Event>)
    ensures AllCalledFor(Run(Init(initial), es).log.effects, initial)
  {
    RunLinks(initial, es);
    var effects := Run(Init(initial), es).log.effects;
    forall k | 0 <= k < |effects| ensures CalledFor(ViewOf(effects[..k], initial), effects[k]) {
      GoodPrefix(effects, initial, k);
    }
  }

  // ---------- What that means for closing and quitting ----------

  /** The operation begun at place b is still under way before place k. */
  ghost predicate BeganAt(effects: seq<Effect>, b: int, k: int, operation: Operation) {
    0 <= b < k <= |effects| && effects[b] == Began(operation) && forall j :: b < j < k ==> !effects[j].Began? && !effects[j].Ended?
  }

  /** The operation under way at place k is the last one begun before it. */
  lemma {:induction false} ServingMeans(effects: seq<Effect>, initial: Option<Path>)
    requires ViewOf(effects, initial).serving.Some?
    ensures exists b :: BeganAt(effects, b, |effects|, ViewOf(effects, initial).serving.value)
  {
    var n := |effects| - 1;
    var op := ViewOf(effects, initial).serving.value;
    ViewFields(effects, initial);
    if effects[n].Began? {
      assert BeganAt(effects, n, |effects|, op);
    } else {
      ServingMeans(effects[..n], initial);
      var b :| BeganAt(effects[..n], b, n, op);
      assert forall j :: b <= j < n ==> effects[j] == effects[..n][j];
      assert BeganAt(effects, b, |effects|, op);
    }
  }

  /** The application is told to quit only while a quit is under way, and only with no runtime left. */
  lemma {:induction false} OnlyQuitQuits(initial: Option<Path>, es: seq<Event>, k: nat)
    requires k < |Run(Init(initial), es).log.effects| && Run(Init(initial), es).log.effects[k].QuitCalled?
    ensures var effects := Run(Init(initial), es).log.effects;
            && !FactsOf(effects[..k]).outstanding
            && exists b :: BeganAt(effects, b, k, Quit)
  {
    EveryEffectIsCalledFor(initial, es);
    var effects := Run(Init(initial), es).log.effects;
    assert CalledFor(ViewOf(effects[..k], initial), effects[k]);
    ServingMeans(effects[..k], initial);
    var b :| BeganAt(effects[..k], b, k, Quit);
    assert forall j :: b <= j < k ==> effects[j] == effects[..k][j];
    assert BeganAt(effects, b, k, Quit);
    OutstandingSeen(effects[..k], initial);
  }

  lemma {:induction false} OutstandingSeen(effects: seq<Effect>, initial: Option<Path>)
    ensures ViewOf(effects, initial).outstanding == FactsOf(effects).outstanding
  {
    if effects != [] {
      ViewFields(effects, initial);
      OutstandingSeen(effects[..|effects| - 1], initial);
    }
  }
}
