/**
 The coordinator with its closure variables as fields. Each method is one code
 segment of the source, from one await to the next, and keeps the invariant that
 a runtime which may be outstanding is accounted for, so that whatever events an
 object has handled, its log never has a start before the runtimes started earlier
 are gone. The log of outside effects is ghost.
 */
module WorkspaceSwitchCoordinator {
  import opened Wrappers
  import S = WorkspaceSwitch
  import R = WorkspaceRequests
  import O = WorkspaceOrder

  class Coordinator {
    var pc: S.Pc
    var operationTail: seq<S.Operation>
    var state: S.InstanceState
    var currentWorkspacePath: Option<S.Path>
    var lastDestination: Option<S.Path>
    var attemptedRuntimeCleanupFailure: Option<S.Failure>
    var generation: nat
    ghost var log: S.Log

    ghost function Model(): S.State
      reads this
    {
      S.State(pc, operationTail, state, currentWorkspacePath, lastDestination,
              attemptedRuntimeCleanupFailure, generation, log)
    }

    ghost predicate Valid()
      reads this
    {
      S.Inv(Model())
    }

    /** Nothing was done to the outside world but e. */
    ghost predicate Did(before: S.Log, e: S.Effect)
      reads this
    {
      log == before.Append(e)
    }

    constructor (initial: Option<S.Path>)
      ensures Valid() && Model() == S.Init(initial)
    {
      S.InitInv(initial);
      pc, operationTail := S.Idle, [];
      state := if initial.Some? then S.Ready else S.Picker;
      currentWorkspacePath, lastDestination := initial, initial;
      attemptedRuntimeCleanupFailure, generation := None, 0;
      log := if initial.Some? then S.NoLog().Append(S.StartCalled(initial.value, 0)) else S.NoLog();
    }

    method Publish(event: S.Publication)
      modifies this`state, this`log
      ensures Model() == S.Publish(old(Model()), event)
    {
      state := S.PhaseOf(event);
      log := log.Append(S.Published(event));
    }

    /** The operation's promise settles. */
    method Finish()
      modifies this`pc, this`log
      ensures Model() == S.Finish(old(Model()))
      ensures pc == S.Idle && Did(old(log), S.Ended)
    {
      log := log.Append(S.Ended);
      pc := S.Idle;
    }

    method PublishAndFinish(event: S.Publication)
      modifies this`pc, this`state, this`log
      ensures Model() == S.Finish(S.Publish(old(Model()), event))
      ensures pc == S.Idle && state == S.PhaseOf(event) && log.facts.outstanding == old(log).facts.outstanding
      ensures log == old(log).Append(S.Published(event)).Append(S.Ended)
    {
      Publish(event);
      Finish();
    }

    method CloseCurrent(next: nat, cont: S.Continuation)
      modifies this`pc, this`state, this`log
      ensures Model() == S.CloseCurrent(old(Model()), next, cont)
      ensures if currentWorkspacePath.Some? then pc == S.AwaitClose(next, cont) && state == S.Closing
              else pc == S.CloseReturned(true, next, cont) && state == old(state) && log == old(log)
    {
      if currentWorkspacePath.None? {
        pc := S.CloseReturned(true, next, cont);
        return;
      }
      Publish(S.ToClosing(next, currentWorkspacePath.value));
      log := log.Append(S.CloseCalled);
      pc := S.AwaitClose(next, cont);
    }

    method SwitchWorkspaceInternal(asked: S.Path, validated: Option<S.Path>)
      requires S.Accounted(Model())
      modifies this
      ensures Valid() && Model() == S.EnterSwitch(old(Model()), asked, validated)
      ensures attemptedRuntimeCleanupFailure == old(attemptedRuntimeCleanupFailure) && currentWorkspacePath == old(currentWorkspacePath)
      ensures old(attemptedRuntimeCleanupFailure).Some? ==> pc == S.Idle && Did(old(log), S.Ended)
      ensures old(attemptedRuntimeCleanupFailure).None? && validated.None? ==>
                pc == S.Idle && log == old(log).Append(S.Validated(asked, None)).Append(S.Ended)
      ensures pc == S.Idle ==> generation == old(generation) && lastDestination == old(lastDestination) && state == old(state)
      ensures old(attemptedRuntimeCleanupFailure).None? && validated.Some? ==>
                && generation == old(generation) + 1 && lastDestination == validated
                && (if currentWorkspacePath.Some?
                    then pc == S.AwaitClose(generation, S.ForSwitch(validated.value)) && state == S.Closing
                    else pc == S.CloseReturned(true, generation, S.ForSwitch(validated.value)) && Did(old(log), S.Validated(asked, validated)))
    {
      ghost var result := S.EnterSwitch(Model(), asked, validated);
      if attemptedRuntimeCleanupFailure.Some? {
        Finish();
      } else {
        log := log.Append(S.Validated(asked, validated));
        if validated.None? {
          Finish();
        } else {
          generation := generation + 1;
          lastDestination := validated;
          CloseCurrent(generation, S.ForSwitch(validated.value));
        }
      }
      assert Model() == result;
      S.EnterSwitchKeepsInv(old(Model()), asked, validated);
    }

    method CloseInternal(cont: S.Continuation)
      requires S.Accounted(Model()) && (cont.ForClose? || cont.ForQuit?)
      modifies this
      ensures Valid() && Model() == S.EnterClose(old(Model()), cont)
      ensures generation == old(generation) + 1 && attemptedRuntimeCleanupFailure == old(attemptedRuntimeCleanupFailure)
      ensures currentWorkspacePath == old(currentWorkspacePath)
      ensures state == if attemptedRuntimeCleanupFailure.Some? then S.Unresolved else if currentWorkspacePath.None? then S.Picker else S.Closing
      ensures pc == if attemptedRuntimeCleanupFailure.None? && currentWorkspacePath.Some? then S.AwaitClose(generation, cont)
                    else S.CloseReturned(attemptedRuntimeCleanupFailure.None?, generation, cont)
    {
      S.EnterCloseKeepsInv(Model(), cont);
      S.EnterCloseShape(Model(), cont);
      CloseOrAnswer(cont);
    }

    /** Close the current runtime, or answer at once: with the latched failure, or with the picker. */
    method CloseOrAnswer(cont: S.Continuation)
      modifies this`generation, this`pc, this`state, this`log
      ensures generation == old(generation) + 1
      ensures attemptedRuntimeCleanupFailure.Some? ==>
                && pc == S.CloseReturned(false, generation, cont) && state == S.Unresolved
                && Did(old(log), S.Published(S.ToUnresolved(generation, attemptedRuntimeCleanupFailure.value)))
      ensures attemptedRuntimeCleanupFailure.None? && currentWorkspacePath.None? ==>
                && pc == S.CloseReturned(true, generation, cont) && state == S.Picker
                && Did(old(log), S.Published(S.ToPicker(generation, None)))
      ensures attemptedRuntimeCleanupFailure.None? && currentWorkspacePath.Some? ==>
                && pc == S.AwaitClose(generation, cont) && state == S.Closing
                && log == old(log).Append(S.Published(S.ToClosing(generation, currentWorkspacePath.value))).Append(S.CloseCalled)
    {
      generation := generation + 1;
      if attemptedRuntimeCleanupFailure.Some? {
        Publish(S.ToUnresolved(generation, attemptedRuntimeCleanupFailure.value));
        pc := S.CloseReturned(false, generation, cont);
      } else if currentWorkspacePath.None? {
        Publish(S.ToPicker(generation, None));
        pc := S.CloseReturned(true, generation, cont);
      } else {
        CloseCurrent(generation, cont);
      }
    }

    method RunUpdate()
      requires Valid() && pc == S.Idle
      modifies this
      ensures Valid() && Model() == S.EnterUpdate(old(Model()))
      ensures old(attemptedRuntimeCleanupFailure).Some? ==> pc == S.Idle && Did(old(log), S.Ended) && generation == old(generation)
      ensures currentWorkspacePath == old(currentWorkspacePath) && attemptedRuntimeCleanupFailure == old(attemptedRuntimeCleanupFailure)
      ensures old(attemptedRuntimeCleanupFailure).None? ==>
                if currentWorkspacePath.Some?
                then pc == S.AwaitClose(generation, S.ForUpdate(currentWorkspacePath.value)) && generation == old(generation) + 1 && state == S.Closing
                else pc == S.Updating(None) && Did(old(log), S.UpdateCalled(None)) && generation == old(generation)
    {
      S.EnterUpdateKeepsInv(Model());
      if attemptedRuntimeCleanupFailure.Some? {
        Finish();
      } else if currentWorkspacePath.None? {
        log := log.Append(S.UpdateCalled(None));
        pc := S.Updating(None);
      } else {
        var previous := currentWorkspacePath.value;
        generation := generation + 1;
        CloseCurrent(generation, S.ForUpdate(previous));
      }
    }

    method RetryOperation(validated: Option<S.Path>)
      requires Valid() && pc == S.Idle
      modifies this
      ensures Valid() && Model() == S.EnterRetry(old(Model()), validated)
      ensures attemptedRuntimeCleanupFailure == old(attemptedRuntimeCleanupFailure) && currentWorkspacePath == old(currentWorkspacePath)
      ensures attemptedRuntimeCleanupFailure.Some? ==> pc == S.RetryCleaning && Did(old(log), S.CleanupCalled)
      ensures attemptedRuntimeCleanupFailure.None? && old(lastDestination).None? ==> pc == S.Idle && Did(old(log), S.Ended)
      ensures attemptedRuntimeCleanupFailure.None? && old(lastDestination).Some? && validated.Some? ==>
                generation == old(generation) + 1 && lastDestination == validated && (pc.AwaitClose? || pc.CloseReturned?)
    {
      S.EnterRetryKeepsInv(Model(), validated);
      if attemptedRuntimeCleanupFailure.Some? {
        log := log.Append(S.CleanupCalled);
        pc := S.RetryCleaning;
      } else if lastDestination.None? {
        Finish();
      } else {
        SwitchWorkspaceInternal(lastDestination.value, validated);
      }
    }

    method Enqueue(operation: S.Operation)
      requires Valid()
      modifies this`operationTail
      ensures Valid() && Model() == S.Step(old(Model()), S.Call(operation))
      ensures operationTail == old(operationTail) + [operation]
    {
      operationTail := operationTail + [operation];
    }

    method MarkUnresolved(failure: S.Failure)
      requires Valid()
      modifies this
      ensures Valid() && Model() == S.Step(old(Model()), S.Mark(failure))
      ensures generation == old(generation) + 1 && attemptedRuntimeCleanupFailure == Some(failure) && state == S.Unresolved
      ensures Did(old(log), S.Published(S.ToUnresolved(generation, failure)))
      ensures pc == old(pc) && currentWorkspacePath == old(currentWorkspacePath)
    {
      S.MarkKeepsInv(Model(), failure);
      generation := generation + 1;
      attemptedRuntimeCleanupFailure := Some(failure);
      Publish(S.ToUnresolved(generation, failure));
    }

    /** The first segment of an operation is that of its own kind. */
    method Dispatch(operation: S.Operation, validated: Option<S.Path>)
      requires Valid() && pc == S.Idle
      modifies this
      ensures Valid() && Model() == S.Enter(old(Model()), operation, validated) && operationTail == old(operationTail)
      ensures pc.AwaitClose? || pc.CloseReturned? ==> S.Continues(operation, pc.cont)
      ensures pc.Picking? <==> operation == S.Pick
      ensures pc.Updating? ==> operation == S.Update
      ensures pc.RetryCleaning? ==> operation == S.Retry
      ensures operation == S.Close || operation == S.Quit ==> pc.AwaitClose? || pc.CloseReturned?
      ensures attemptedRuntimeCleanupFailure == old(attemptedRuntimeCleanupFailure) && currentWorkspacePath == old(currentWorkspacePath)
      ensures operation.Switch? && attemptedRuntimeCleanupFailure.None? && validated.Some? ==>
                lastDestination == validated && generation == old(generation) + 1 && (pc.AwaitClose? || pc.CloseReturned?)
      ensures operation == S.Update && attemptedRuntimeCleanupFailure.None? ==> pc.AwaitClose? || pc.Updating?
      ensures operation == S.Retry && attemptedRuntimeCleanupFailure.Some? ==> pc == S.RetryCleaning
    {
      ghost var result := S.Enter(Model(), operation, validated);
      match operation {
        case Switch(path) => SwitchWorkspaceInternal(path, validated);
        case Pick => pc := S.Picking;
        case Retry => RetryOperation(validated);
        case Update => RunUpdate();
        case Close => CloseInternal(S.ForClose);
        case Quit => CloseInternal(S.ForQuit);
      }
      assert Model() == result;
      S.EnterKeepsInv(old(Model()), operation, validated);
    }

    method BeginNext(validated: Option<S.Path>)
      requires Valid()
      modifies this
      ensures Valid() && Model() == S.Step(old(Model()), S.Begin(validated))
      ensures old(pc) != S.Idle || old(operationTail) == [] ==> Model() == old(Model())
      ensures old(pc) == S.Idle && old(operationTail) != [] ==>
                && operationTail == old(operationTail)[1..]
                && (pc.AwaitClose? || pc.CloseReturned? ==> S.Continues(old(operationTail)[0], pc.cont))
                && (pc.Picking? <==> old(operationTail)[0] == S.Pick)
                && (old(operationTail)[0] == S.Close || old(operationTail)[0] == S.Quit ==> pc.AwaitClose? || pc.CloseReturned?)
                && (old(operationTail)[0].Switch? && attemptedRuntimeCleanupFailure.None? && validated.Some? ==>
                      lastDestination == validated && generation == old(generation) + 1 && (pc.AwaitClose? || pc.CloseReturned?))
                && (old(operationTail)[0] == S.Update && attemptedRuntimeCleanupFailure.None? ==> pc.AwaitClose? || pc.Updating?)
                && (old(operationTail)[0] == S.Retry && attemptedRuntimeCleanupFailure.Some? ==> pc == S.RetryCleaning)
    {
      if pc != S.Idle || operationTail == [] { return; }
      var operation := operationTail[0];
      S.EmitIsSound(Model(), S.Began(operation));
      operationTail := operationTail[1..];
      log := log.Append(S.Began(operation));
      Dispatch(operation, validated);
    }

    method PickSettled(choice: Option<S.Path>, validated: Option<S.Path>)
      requires Valid()
      modifies this
      ensures old(pc) != S.Picking ==> Model() == old(Model())
      ensures old(pc) == S.Picking && choice.None? ==> pc == S.Idle && Did(old(log), S.Ended)
      ensures old(pc) == S.Picking && choice.Some? && validated.Some? && attemptedRuntimeCleanupFailure.None? ==>
                generation == old(generation) + 1 && lastDestination == validated && (pc.AwaitClose? || pc.CloseReturned?)
      ensures Valid() && Model() == S.Step(old(Model()), S.Picked(choice, validated))
    {
      if pc != S.Picking { return; }
      S.PickedKeepsInv(Model(), choice, validated);
      if choice.None? {
        Finish();
      } else {
        log := log.Append(S.Chosen(choice.value));
        S.EmitIsSound(old(Model()), S.Chosen(choice.value));
        SwitchWorkspaceInternal(choice.value, validated);
      }
    }

    method CloseCurrentSettled(close: S.Settled)
      requires Valid()
      modifies this
      ensures Valid() && Model() == S.Step(old(Model()), S.CloseSettled(close))
      ensures old(pc).AwaitClose? ==> pc == S.CloseReturned(close.Resolved?, old(pc).next, old(pc).cont)
      ensures old(pc).AwaitClose? && close.Resolved? ==> currentWorkspacePath == None && state == S.Picker && !log.facts.outstanding
      ensures old(pc).AwaitClose? && close.Resolved? ==> log == old(log).Append(S.RuntimeGone).Append(S.Published(S.ToPicker(old(pc).next, None)))
      ensures old(pc).AwaitClose? && close.Rejected? ==>
                currentWorkspacePath == old(currentWorkspacePath) && Did(old(log), S.Published(S.ToUnresolved(old(pc).next, close.failure)))
    {
      S.CloseSettledKeepsInv(Model(), close);
      if !pc.AwaitClose? { return; }
      var next, cont := pc.next, pc.cont;
      match close
      case Rejected(failure) =>
        Publish(S.ToUnresolved(next, failure));
        pc := S.CloseReturned(false, next, cont);
      case Resolved =>
        log := log.Append(S.RuntimeGone);
        currentWorkspacePath := None;
        Publish(S.ToPicker(next, None));
        pc := S.CloseReturned(true, next, cont);
    }

    method CloseCurrentResumed()
      requires Valid()
      modifies this
      ensures Valid() && Model() == S.Step(old(Model()), S.CloseResumed)
      ensures old(pc).CloseReturned? ==>
                pc == if !old(pc).ok then S.Idle else
                      match old(pc).cont
                      case ForSwitch(path) => S.AwaitStart(path, old(pc).next)
                      case ForUpdate(previous) => S.Updating(Some(previous))
                      case ForClose => S.Idle
                      case ForQuit => S.Quitting(old(pc).next)
      ensures old(pc).CloseReturned? && old(pc).ok && old(pc).cont.ForQuit? ==> Did(old(log), S.QuitCalled)
      ensures old(pc).CloseReturned? && old(pc).ok && old(pc).cont.ForSwitch? ==>
                state == S.Opening && log == old(log).Append(S.Published(S.ToOpening(old(pc).next, old(pc).cont.path)))
                                                   .Append(S.StartCalled(old(pc).cont.path, old(pc).next))
      ensures log.facts.lastStart != old(log).facts.lastStart ==>
                !old(log).facts.outstanding && old(log).facts.lastStart < log.facts.lastStart <= generation
    {
      ghost var result := S.OnCloseResumed(Model());
      if !pc.CloseReturned? { return; }
      var next := pc.next;
      if !pc.ok {
        Finish();
      } else {
        match pc.cont
        case ForSwitch(path) => StartRuntime(path, next);
        case ForUpdate(previous) =>
          log := log.Append(S.UpdateCalled(Some(previous)));
          pc := S.Updating(Some(previous));
        case ForClose => Finish();
        case ForQuit =>
          log := log.Append(S.QuitCalled);
          pc := S.Quitting(next);
      }
      assert Model() == result;
      S.CloseResumedKeepsInv(old(Model()));
    }

    method StartRuntime(path: S.Path, next: nat)
      modifies this`pc, this`state, this`log
      ensures pc == S.AwaitStart(path, next) && state == S.Opening
      ensures log == old(log).Append(S.Published(S.ToOpening(next, path))).Append(S.StartCalled(path, next))
    {
      Publish(S.ToOpening(next, path));
      log := log.Append(S.StartCalled(path, next));
      pc := S.AwaitStart(path, next);
    }

    method StartRuntimeSettled(outcome: S.StartOutcome)
      requires Valid()
      modifies this
      ensures Valid() && Model() == S.Step(old(Model()), S.StartSettled(outcome))
      ensures old(pc).AwaitStart? ==>
                if outcome.OpenedOn? && old(pc).next == generation
                then pc == S.Remembering(old(pc).path, old(pc).next, outcome.port) && log == old(log)
                else Did(old(log), S.CleanupCalled)
                     && pc == if outcome.OpenFailed? then S.CleaningFailedStart(old(pc).next, outcome.failure) else S.CleaningSuperseded(old(pc).next)
    {
      S.StartSettledKeepsInv(Model(), outcome);
      if !pc.AwaitStart? { return; }
      var path, next := pc.path, pc.next;
      match outcome
      case OpenFailed(failure) =>
        log := log.Append(S.CleanupCalled);
        pc := S.CleaningFailedStart(next, failure);
      case OpenedOn(port) =>
        if next != generation {
          log := log.Append(S.CleanupCalled);
          pc := S.CleaningSuperseded(next);
        } else {
          pc := S.Remembering(path, next, port);
        }
    }

    method AttemptCleanupSettled(next: nat, cause: Option<S.Failure>, cleanup: S.Settled)
      requires Valid()
      modifies this
      ensures Valid() && Model() == S.AfterAttemptCleanup(old(Model()), next, cause, cleanup)
      ensures pc == S.Idle && currentWorkspacePath == old(currentWorkspacePath)
      ensures attemptedRuntimeCleanupFailure == if cleanup.Rejected? then Some(cleanup.failure) else old(attemptedRuntimeCleanupFailure)
      ensures attemptedRuntimeCleanupFailure.Some? ==> state == S.Unresolved
      ensures attemptedRuntimeCleanupFailure.None? ==> !log.facts.outstanding && state == if cause.Some? then S.Picker else old(state)
      ensures cleanup.Rejected? ==> log == old(log).Append(S.Published(S.ToUnresolved(next, cleanup.failure))).Append(S.Ended)
      ensures cleanup.Resolved? && attemptedRuntimeCleanupFailure.Some? ==>
                log == old(log).Append(S.RuntimeGone).Append(S.Published(S.ToUnresolved(generation, attemptedRuntimeCleanupFailure.value))).Append(S.Ended)
      ensures cleanup.Resolved? && attemptedRuntimeCleanupFailure.None? && cause.Some? ==>
                log == old(log).Append(S.RuntimeGone).Append(S.Published(S.ToPicker(next, cause))).Append(S.Ended)
    {
      ghost var result := S.AfterAttemptCleanup(Model(), next, cause, cleanup);
      match cleanup {
        case Rejected(failure) =>
          attemptedRuntimeCleanupFailure := Some(failure);
          PublishAndFinish(S.ToUnresolved(next, failure));
        case Resolved =>
          log := log.Append(S.RuntimeGone);
          if attemptedRuntimeCleanupFailure.Some? {
            PublishAndFinish(S.ToUnresolved(generation, attemptedRuntimeCleanupFailure.value));
          } else if cause.Some? {
            PublishAndFinish(S.ToPicker(next, cause));
          } else {
            Finish();
          }
      }
      assert Model() == result;
      S.AttemptCleanupKeepsInv(old(Model()), next, cause, cleanup);
    }

    method CleanupAttemptedRuntimeSettled(cleanup: S.Settled, validated: Option<S.Path>)
      requires Valid()
      modifies this
      ensures Valid() && Model() == S.Step(old(Model()), S.CleanupSettled(cleanup, validated))
    {
      ghost var result := S.Step(Model(), S.CleanupSettled(cleanup, validated));
      if pc.RetryCleaning? {
        assert result == S.AfterRetryCleanup(Model(), cleanup, validated);
        RetryCleanupSettled(cleanup, validated);
      } else if pc.CleaningFailedStart? || pc.CleaningSuperseded? || pc.CleaningStale? {
        var next, cause := pc.next, if pc.CleaningFailedStart? then Some(pc.cause) else None;
        assert result == S.AfterAttemptCleanup(Model(), next, cause, cleanup);
        AttemptCleanupSettled(next, cause, cleanup);
      }
      assert Model() == result;
    }

    /** The cleanup of a retry has resolved. */
    method CleanUp()
      modifies this`log, this`attemptedRuntimeCleanupFailure, this`state
      ensures Model() == S.CleanedUp(old(Model()))
      ensures attemptedRuntimeCleanupFailure == None && !log.facts.outstanding && state == S.Picker
      ensures log == old(log).Append(S.RuntimeGone).Append(S.Published(S.ToPicker(generation, None)))
    {
      log := log.Append(S.RuntimeGone);
      attemptedRuntimeCleanupFailure := None;
      Publish(S.ToPicker(generation, None));
    }

    /** Open the last destination again, if there is one. */
    method ReopenLast(validated: Option<S.Path>)
      requires S.Accounted(Model()) && attemptedRuntimeCleanupFailure.None?
      modifies this
      ensures Model() == if old(lastDestination).None? then S.Finish(old(Model())) else S.EnterSwitch(old(Model()), old(lastDestination).value, validated)
      ensures attemptedRuntimeCleanupFailure == None && log.facts.outstanding == old(log).facts.outstanding
      ensures old(lastDestination).None? || validated.None? ==> pc == S.Idle && state == old(state)
      ensures old(lastDestination).Some? && validated.Some? ==>
                lastDestination == validated && generation == old(generation) + 1 && (pc.AwaitClose? || pc.CloseReturned?)
    {
      if lastDestination.None? {
        Finish();
      } else {
        SwitchWorkspaceInternal(lastDestination.value, validated);
      }
    }

    method RetryCleanupSettled(cleanup: S.Settled, validated: Option<S.Path>)
      requires Valid()
      modifies this
      ensures Valid() && Model() == S.AfterRetryCleanup(old(Model()), cleanup, validated)
      ensures attemptedRuntimeCleanupFailure == if cleanup.Rejected? then Some(cleanup.failure) else None
      ensures cleanup.Rejected? ==> pc == S.Idle && state == S.Unresolved && generation == old(generation)
      ensures cleanup.Rejected? ==> log == old(log).Append(S.Published(S.ToUnresolved(generation, cleanup.failure))).Append(S.Ended)
      ensures cleanup.Resolved? ==> !log.facts.outstanding
      ensures cleanup.Resolved? && (old(lastDestination).None? || validated.None?) ==> pc == S.Idle && state == S.Picker
      ensures cleanup.Resolved? && old(lastDestination).Some? && validated.Some? ==>
                lastDestination == validated && generation == old(generation) + 1 && (pc.AwaitClose? || pc.CloseReturned?)
    {
      ghost var result := S.AfterRetryCleanup(Model(), cleanup, validated);
      if cleanup.Rejected? {
        attemptedRuntimeCleanupFailure := Some(cleanup.failure);
        PublishAndFinish(S.ToUnresolved(generation, cleanup.failure));
      } else {
        S.CleanedUpIsAccounted(Model());
        CleanUp();
        ReopenLast(validated);
      }
      assert Model() == result;
      S.RetryCleanupKeepsInv(old(Model()), cleanup, validated);
    }

    method RememberWorkspaceSettled()
      requires Valid()
      modifies this
      ensures Valid() && Model() == S.Step(old(Model()), S.Remembered)
      ensures old(pc).Remembering? ==>
                if old(pc).next == generation && attemptedRuntimeCleanupFailure.None?
                then currentWorkspacePath == Some(old(pc).path) && pc == S.Idle && state == S.Ready
                     && log == old(log).Append(S.Published(S.ToReady(generation, old(pc).path, old(pc).port))).Append(S.Ended)
                else currentWorkspacePath == old(currentWorkspacePath) && pc == S.CleaningStale(old(pc).next) && Did(old(log), S.CleanupCalled)
      ensures !old(pc).Remembering? ==> Model() == old(Model())
    {
      S.RememberedKeepsInv(Model());
      if !pc.Remembering? { return; }
      var path, next, port := pc.path, pc.next, pc.port;
      if next != generation || attemptedRuntimeCleanupFailure.Some? {
        log := log.Append(S.CleanupCalled);
        pc := S.CleaningStale(next);
        return;
      }
      currentWorkspacePath := Some(path);
      Publish(S.ToReady(next, path, port));
      Finish();
    }

    method UpdateOperationSettled(ok: bool, validated: Option<S.Path>)
      requires Valid()
      modifies this
      ensures Valid() && Model() == S.Step(old(Model()), S.UpdateSettled(ok, validated))
      ensures old(pc).Updating? ==>
                if !ok && old(pc).previous.Some? && old(attemptedRuntimeCleanupFailure).None? && validated.Some?
                then generation == old(generation) + 1 && lastDestination == validated && (pc.AwaitClose? || pc.CloseReturned?)
                else pc == S.Idle && generation == old(generation)
      ensures old(pc).Updating? && (ok || old(pc).previous.None? || old(attemptedRuntimeCleanupFailure).Some?) ==> Did(old(log), S.Ended)
    {
      S.UpdateKeepsInv(Model(), ok, validated);
      if !pc.Updating? { return; }
      if !ok && pc.previous.Some? && attemptedRuntimeCleanupFailure.None? {
        SwitchWorkspaceInternal(pc.previous.value, validated);
      } else {
        Finish();
      }
    }

    method OnQuitSettled(quit: S.Settled)
      requires Valid()
      modifies this
      ensures Valid() && Model() == S.Step(old(Model()), S.QuitSettled(quit))
      ensures old(pc).Quitting? ==> pc == S.Idle && state == if quit.Rejected? then S.Unresolved else old(state)
      ensures old(pc).Quitting? && quit.Rejected? ==>
                log == old(log).Append(S.Published(S.ToUnresolved(old(pc).next, quit.failure))).Append(S.Ended)
    {
      S.QuitKeepsInv(Model(), quit);
      if !pc.Quitting? { return; }
      if quit.Rejected? {
        Publish(S.ToUnresolved(pc.next, quit.failure));
      }
      Finish();
    }

    /** Whatever happens next, in the state the object is in. */
    method Handle(e: S.Event)
      requires Valid()
      modifies this
      ensures Valid() && Model() == S.Step(old(Model()), e)
    {
      match e {
        case Call(operation) => Enqueue(operation);
        case Begin(validated) => BeginNext(validated);
        case Mark(failure) => MarkUnresolved(failure);
        case Picked(choice, validated) => PickSettled(choice, validated);
        case CloseSettled(close) => CloseCurrentSettled(close);
        case CloseResumed => CloseCurrentResumed();
        case StartSettled(outcome) => StartRuntimeSettled(outcome);
        case CleanupSettled(cleanup, validated) => CleanupAttemptedRuntimeSettled(cleanup, validated);
        case Remembered => RememberWorkspaceSettled();
        case UpdateSettled(ok, validated) => UpdateOperationSettled(ok, validated);
        case QuitSettled(quit) => OnQuitSettled(quit);
      }
    }
  }

  /** A new object handling any events in any order: its starts wait for the runtimes started before. */
  method Serve(initial: Option<S.Path>, es: seq<S.Event>) returns (t: Coordinator)
    ensures fresh(t) && t.Valid() && t.Model() == S.Run(S.Init(initial), es)
    ensures S.StartsAreSeparated(t.log.effects) && S.StartsIncrease(t.log.effects)
    ensures R.AllCalledFor(t.log.effects, initial)
    ensures O.Begun(t.log.effects) + t.operationTail == O.Called(es)
  {
    t := new Coordinator(initial);
    for i := 0 to |es|
      invariant fresh(t) && t.Valid() && t.Model() == S.Run(S.Init(initial), es[..i])
    {
      assert es[..i + 1][..i] == es[..i];
      t.Handle(es[i]);
    }
    assert es[..|es|] == es;
    S.GoodLogIsOrdered(t.log.effects);
    R.EveryEffectIsCalledFor(initial, es);
    O.ServedInOrder(initial, es);
  }
}
