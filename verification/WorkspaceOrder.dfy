/**
 The coordinator serves its requests one at a time in the order they were made: what
 has begun, in the log, followed by what is queued, is what was called.
 */
module WorkspaceOrder {
  import opened Wrappers
  import opened WorkspaceSwitch

  /** The operations begun, in order. */
  function Begun(effects: seq<Effect>): seq<Operation> {
    if effects == [] then [] else
    var last := effects[|effects| - 1];
    Begun(effects[..|effects| - 1]) + if last.Began? then [last.operation] else []
  }

  /** The operations called, in order. */
  function Called(es: seq<Event>): seq<Operation> {
    if es == [] then [] else
    var last := es[|es| - 1];
    Called(es[..|es| - 1]) + if last.Call? then [last.operation] else []
  }

  /** Nothing began and the queue is as it was. */
  predicate SameServed(s: State, t: State) {
    Begun(t.log.effects) == Begun(s.log.effects) && t.queue == s.queue
  }

  lemma {:induction false} AppendBegun(log: Log, e: Effect)
    ensures Begun(log.Append(e).effects) == Begun(log.effects) + if e.Began? then [e.operation] else []
  {
    assert (log.effects + [e])[..|log.effects|] == log.effects;
  }

  /** One or two effects other than a beginning. */
  lemma {:induction false} Silent(log: Log, a: Effect, b: Effect)
    requires !a.Began? && !b.Began?
    ensures Begun(log.Append(a).effects) == Begun(log.effects) && Begun(log.Append(a).Append(b).effects) == Begun(log.effects)
  {
    AppendBegun(log, a);
    AppendBegun(log.Append(a), b);
  }

  lemma {:induction false} CloseCurrentServes(s: State, next: nat, cont: Continuation)
    ensures SameServed(s, CloseCurrent(s, next, cont))
  {
    if s.current.Some? {
      Silent(s.log, Published(ToClosing(next, s.current.value)), CloseCalled);
    }
  }

  lemma {:induction false} EnterSwitchServes(s: State, asked: Path, validated: Option<Path>)
    ensures SameServed(s, EnterSwitch(s, asked, validated))
  {
    Silent(s.log, Ended, Ended);
    Silent(s.log, Validated(asked, validated), Ended);
    if s.latch.None? && validated.Some? {
      var s1 := Emit(s, Validated(asked, validated));
      CloseCurrentServes(s1.(generation := s.generation + 1, last := validated), s.generation + 1, ForSwitch(validated.value));
    }
  }

  lemma {:induction false} FinishServes(s: State)
    ensures SameServed(s, Finish(s))
  {
    AppendBegun(s.log, Ended);
  }

  lemma {:induction false} EnterRetryServes(s: State, validated: Option<Path>)
    ensures SameServed(s, EnterRetry(s, validated))
  {
    AppendBegun(s.log, CleanupCalled);
    FinishServes(s);
    if s.last.Some? {
      EnterSwitchServes(s, s.last.value, validated);
    }
  }

  lemma {:induction false} EnterUpdateServes(s: State)
    ensures SameServed(s, EnterUpdate(s))
  {
    AppendBegun(s.log, UpdateCalled(None));
    FinishServes(s);
    if s.current.Some? {
      CloseCurrentServes(s.(generation := s.generation + 1), s.generation + 1, ForUpdate(s.current.value));
    }
  }

  lemma {:induction false} EnterServes(s: State, operation: Operation, validated: Option<Path>)
    ensures SameServed(s, Enter(s, operation, validated))
  {
    match operation
    case Switch(path) => EnterSwitchServes(s, path, validated);
    case Pick =>
    case Retry => EnterRetryServes(s, validated);
    case Update => EnterUpdateServes(s);
    case Close => EnterCloseServes(s, ForClose);
    case Quit => EnterCloseServes(s, ForQuit);
  }

  lemma {:induction false} EnterCloseServes(s: State, cont: Continuation)
    requires cont.ForClose? || cont.ForQuit?
    ensures SameServed(s, EnterClose(s, cont))
  {
    EnterCloseShape(s, cont);
    var next := s.generation + 1;
    Silent(s.log, Published(ToPicker(next, None)), Ended);
    if s.latch.Some? {
      Silent(s.log, Published(ToUnresolved(next, s.latch.value)), Ended);
    } else if s.current.Some? {
      Silent(s.log, Published(ToClosing(next, s.current.value)), CloseCalled);
    }
  }

  /** A request begins when it is the oldest and nothing else runs. */
  lemma {:induction false} BeginServes(s: State, validated: Option<Path>)
    ensures var t := BeginOperation(s, validated);
            Begun(t.log.effects) + t.queue == Begun(s.log.effects) + s.queue
  {
    if s.pc == Idle && s.queue != [] {
      var s1 := Emit(s.(queue := s.queue[1..]), Began(s.queue[0]));
      AppendBegun(s.log, Began(s.queue[0]));
      EnterServes(s1, s.queue[0], validated);
      assert [s.queue[0]] + s.queue[1..] == s.queue;
    }
  }

  lemma {:induction false} CloseServes(s: State, close: Settled)
    ensures SameServed(s, OnCloseSettled(s, close)) && SameServed(s, OnCloseResumed(s))
  {
    if s.pc.AwaitClose? {
      match close
      case Rejected(f) => Silent(s.log, Published(ToUnresolved(s.pc.next, f)), Ended);
      case Resolved => Silent(s.log, RuntimeGone, Published(ToPicker(s.pc.next, None)));
    }
    if s.pc.CloseReturned? {
      Silent(s.log, Ended, QuitCalled);
      Silent(s.log, QuitCalled, Ended);
      if s.pc.cont.ForSwitch? {
        Silent(s.log, Published(ToOpening(s.pc.next, s.pc.cont.path)), StartCalled(s.pc.cont.path, s.pc.next));
      } else if s.pc.cont.ForUpdate? {
        Silent(s.log, UpdateCalled(Some(s.pc.cont.previous)), Ended);
      }
    }
  }

  lemma {:induction false} PublishAndFinishServes(s: State, p: Publication)
    ensures SameServed(s, Publish(s, p)) && SameServed(s, Finish(Publish(s, p)))
  {
    Silent(s.log, Published(p), Ended);
  }

  lemma {:induction false} AttemptServes(s: State, next: nat, cause: Option<Failure>, cleanup: Settled)
    ensures SameServed(s, AfterAttemptCleanup(s, next, cause, cleanup))
  {
    match cleanup
    case Rejected(f) => PublishAndFinishServes(s.(latch := Some(f)), ToUnresolved(next, f));
    case Resolved =>
      var s1 := Emit(s, RuntimeGone);
      Silent(s.log, RuntimeGone, Ended);
      PublishAndFinishServes(s1, if s1.latch.Some? then ToUnresolved(s1.generation, s1.latch.value) else ToPicker(next, cause));
  }

  lemma {:induction false} RetryServes(s: State, cleanup: Settled, validated: Option<Path>)
    ensures SameServed(s, AfterRetryCleanup(s, cleanup, validated))
  {
    match cleanup
    case Rejected(f) => PublishAndFinishServes(s.(latch := Some(f)), ToUnresolved(s.generation, f));
    case Resolved =>
      var s1 := CleanedUp(s);
      Silent(s.log, RuntimeGone, Published(ToPicker(s.generation, None)));
      Silent(s1.log, Ended, Ended);
      if s1.last.Some? {
        EnterSwitchServes(s1, s1.last.value, validated);
      }
  }

  lemma {:induction false} CleanupServes(s: State, cleanup: Settled, validated: Option<Path>)
    ensures SameServed(s, OnCleanupSettled(s, cleanup, validated))
  {
    match s.pc
    case CleaningFailedStart(next, cause) =>
      AttemptServes(s, next, Some(cause), cleanup);
      assert OnCleanupSettled(s, cleanup, validated) == AfterAttemptCleanup(s, next, Some(cause), cleanup);
    case CleaningSuperseded(next) =>
      AttemptServes(s, next, None, cleanup);
      assert OnCleanupSettled(s, cleanup, validated) == AfterAttemptCleanup(s, next, None, cleanup);
    case CleaningStale(next) =>
      AttemptServes(s, next, None, cleanup);
      assert OnCleanupSettled(s, cleanup, validated) == AfterAttemptCleanup(s, next, None, cleanup);
    case RetryCleaning =>
      RetryServes(s, cleanup, validated);
      assert OnCleanupSettled(s, cleanup, validated) == AfterRetryCleanup(s, cleanup, validated);
    case _ =>
  }

  lemma {:induction false} SettledServes(s: State, ok: bool, validated: Option<Path>, quit: Settled)
    ensures SameServed(s, OnRemembered(s)) && SameServed(s, OnUpdateSettled(s, ok, validated)) && SameServed(s, OnQuitSettled(s, quit))
  {
    Silent(s.log, Ended, Ended);
    Silent(s.log, CleanupCalled, Ended);
    if s.pc.Remembering? {
      PublishAndFinishServes(s.(current := Some(s.pc.path)), ToReady(s.pc.next, s.pc.path, s.pc.port));
    } else if s.pc.Updating? && s.pc.previous.Some? {
      EnterSwitchServes(s, s.pc.previous.value, validated);
    } else if s.pc.Quitting? && quit.Rejected? {
      PublishAndFinishServes(s, ToUnresolved(s.pc.next, quit.failure));
    }
  }

  lemma {:induction false} PickedServes(s: State, choice: Option<Path>, validated: Option<Path>)
    ensures SameServed(s, Step(s, Picked(choice, validated)))
  {
    if s.pc == Picking {
      if choice.None? {
        FinishServes(s);
        assert Step(s, Picked(choice, validated)) == Finish(s);
      } else {
        var s1 := Emit(s, Chosen(choice.value));
        AppendBegun(s.log, Chosen(choice.value));
        EnterSwitchServes(s1, choice.value, validated);
        assert Step(s, Picked(choice, validated)) == EnterSwitch(s1, choice.value, validated);
      }
    }
  }

  lemma {:induction false} MarkServes(s: State, f: Failure)
    ensures SameServed(s, OnMark(s, f))
  {
    AppendBegun(s.log, Published(ToUnresolved(s.generation + 1, f)));
  }

  lemma {:induction false} StartServes(s: State, outcome: StartOutcome)
    ensures SameServed(s, OnStartSettled(s, outcome))
  {
    AppendBegun(s.log, CleanupCalled);
  }

  /** No event but a call and a beginning touches the order. */
  lemma {:induction false} OthersServe(s: State, e: Event)
    requires !e.Call? && !e.Begin? && !e.Picked?
    ensures SameServed(s, Step(s, e))
  {
    match e
    case Mark(f) =>
      MarkServes(s, f);
      assert Step(s, e) == OnMark(s, f);
    case CloseSettled(close) =>
      CloseServes(s, close);
      assert Step(s, e) == OnCloseSettled(s, close);
    case CloseResumed =>
      CloseServes(s, Resolved);
      assert Step(s, e) == OnCloseResumed(s);
    case StartSettled(outcome) =>
      StartServes(s, outcome);
      assert Step(s, e) == OnStartSettled(s, outcome);
    case CleanupSettled(cleanup, validated) =>
      CleanupServes(s, cleanup, validated);
      assert Step(s, e) == OnCleanupSettled(s, cleanup, validated);
    case Remembered =>
      SettledServes(s, true, None, Resolved);
      assert Step(s, e) == OnRemembered(s);
    case UpdateSettled(ok, validated) =>
      SettledServes(s, ok, validated, Resolved);
      assert Step(s, e) == OnUpdateSettled(s, ok, validated);
    case QuitSettled(quit) =>
      SettledServes(s, true, None, quit);
      assert Step(s, e) == OnQuitSettled(s, quit);
  }

  lemma {:induction false} StepServes(s: State, e: Event)
    ensures var t := Step(s, e);
            Begun(t.log.effects) + t.queue == Begun(s.log.effects) + s.queue + if e.Call? then [e.operation] else []
  {
    if e.Call? {
      assert Step(s, e) == s.(queue := s.queue + [e.operation]);
    } else if e.Begin? {
      BeginServes(s, e.validated);
    } else if e.Picked? {
      PickedServes(s, e.choice, e.validated);
    } else {
      OthersServe(s, e);
    }
  }

  /** In every run the requests begun, in the log, and those queued behind them are the requests made, in their order. */
  lemma {:induction false} ServedInOrder(initial: Option<Path>, es: seq<Event>)
    ensures var s := Run(Init(initial), es); Begun(s.log.effects) + s.queue == Called(es)
  {
    if es == [] {
      if initial.Some? {
        AppendBegun(NoLog(), StartCalled(initial.value, 0));
      }
    } else {
      ServedInOrder(initial, es[..|es| - 1]);
      StepServes(Run(Init(initial), es[..|es| - 1]), es[|es| - 1]);
    }
  }
}
