/**
 The update service object: its closure variables as fields, its operations, its
 engine event handlers and each stretch of an install between two awaits as
 methods. Every method keeps the journal's invariant, so whatever events an object
 has handled, each of its calls of quitAndInstall was justified.
 */
module UpdateServiceObject {
  import opened Wrappers
  import U = UpdateService

  class Service {
    const cfg: U.Config
    var status: U.Status
    var published: nat
    var candidate: Option<U.Held>
    var downloaded: Option<U.Held>
    var operations: nat
    var active: Option<U.Operation>
    var checkPromise: Option<nat>
    var downloadPromise: Option<nat>
    var install: U.InstallSlot
    var journal: seq<U.Entry>

    ghost function Model(): U.State
      reads this
    {
      U.State(status, published, candidate, downloaded, operations, active, checkPromise, downloadPromise, install, journal)
    }

    ghost predicate Valid()
      reads this
    {
      U.Sound(cfg, Model())
    }

    constructor (cfg: U.Config)
      ensures Valid() && Model() == U.Initial && this.cfg == cfg
    {
      this.cfg := cfg;
      status, published, candidate, downloaded, operations := U.NeverChecked, 0, None, None, 0;
      active, checkPromise, downloadPromise, install, journal := None, None, None, U.NoInstall, [];
    }

    method Publish(next: U.Status)
      modifies this`status, this`published
      ensures status == next && published == old(published) + 1
    {
      status := next;
      published := published + 1;
    }

    method Begin(kind: U.Kind, e: U.Entry)
      modifies this`operations, this`active, this`journal
      ensures operations == old(operations) + 1 && journal == old(journal) + [e]
      ensures active == Some(U.Operation(kind, operations, |old(journal)|))
    {
      operations := operations + 1;
      active := Some(U.Operation(kind, operations, |journal|));
      journal := journal + [e];
    }

    predicate EventMatches(kind: U.Kind, operation: nat)
      reads this
    {
      active.Some? && active.value.kind == kind && active.value.sequence == operation
    }

    // ---------- Operations ----------

    method Check() returns (started: bool)
      requires Valid()
      modifies this
      ensures Valid() && Model() == U.Step(cfg, old(Model()), U.CheckStart)
      ensures started <==> old(install) == U.NoInstall && old(checkPromise).None?
      ensures started ==> EventMatches(U.Check, operations) && operations == old(operations) + 1 && journal == old(journal) + [U.CheckStarted(operations)]
      ensures started ==> status == U.Checking && candidate == old(candidate) && downloaded == old(downloaded) && checkPromise == Some(operations)
      ensures !started ==> Model() == old(Model())
    {
      ghost var next := U.Step(cfg, Model(), U.CheckStart);
      if install != U.NoInstall || checkPromise.Some? {
        return false;
      }
      checkPromise := Some(operations + 1);
      Begin(U.Check, U.CheckStarted(operations + 1));
      Publish(U.Checking);
      assert Model() == next;
      U.StepJustifies(cfg, old(Model()), U.CheckStart);
      return true;
    }

    method CheckSettles(sequence: nat, failed: bool)
      requires Valid()
      modifies this
      ensures Valid() && Model() == U.Step(cfg, old(Model()), U.CheckSettles(sequence, failed))
      ensures if !old(EventMatches(U.Check, sequence)) then status == old(status) && candidate == old(candidate) && active == old(active)
              else active == None && (if failed then status == U.Error(U.Check, None) && candidate == old(candidate)
                                      else status == U.UpToDate && candidate == None)
      ensures checkPromise != Some(sequence) && downloaded == old(downloaded) && install == old(install) && journal == old(journal)
    {
      ghost var next := U.Step(cfg, Model(), U.CheckSettles(sequence, failed));
      if EventMatches(U.Check, sequence) {
        active := None;
        if failed {
          Publish(U.Error(U.Check, None));
        } else {
          candidate := None;
          Publish(U.UpToDate);
        }
      }
      if checkPromise == Some(sequence) {
        checkPromise := None;
      }
      assert Model() == next;
      U.StepJustifies(cfg, old(Model()), U.CheckSettles(sequence, failed));
    }

    method Download() returns (started: bool)
      requires Valid()
      modifies this
      ensures Valid() && Model() == U.Step(cfg, old(Model()), U.DownloadStart)
      ensures started <==> old(install) == U.NoInstall && old(checkPromise).None? && old(downloadPromise).None? && old(candidate).Some?
      ensures started ==> EventMatches(U.Download, operations) && operations == old(operations) + 1 && journal == old(journal) + [U.DownloadStarted(operations)]
      ensures started ==> candidate == old(candidate) && downloaded == old(downloaded) && downloadPromise == Some(operations)
                          && status == U.Downloading(candidate.value.candidate)
      ensures !started ==> Model() == old(Model())
    {
      ghost var next := U.Step(cfg, Model(), U.DownloadStart);
      if install != U.NoInstall || checkPromise.Some? || downloadPromise.Some? || candidate.None? {
        return false;
      }
      downloadPromise := Some(operations + 1);
      Begin(U.Download, U.DownloadStarted(operations + 1));
      Publish(U.Downloading(candidate.value.candidate));
      assert Model() == next;
      U.StepJustifies(cfg, old(Model()), U.DownloadStart);
      return true;
    }

    method DownloadSettles(sequence: nat)
      requires Valid()
      modifies this
      ensures Valid() && Model() == U.Step(cfg, old(Model()), U.DownloadSettles(sequence))
      ensures old(EventMatches(U.Download, sequence)) ==>
                active == None && candidate.Some? && status == U.Error(U.Download, Some(candidate.value.candidate))
      ensures !old(EventMatches(U.Download, sequence)) ==> active == old(active) && status == old(status)
      ensures downloadPromise != Some(sequence) && candidate == old(candidate) && downloaded == old(downloaded)
      ensures install == old(install) && journal == old(journal)
    {
      ghost var next := U.Step(cfg, Model(), U.DownloadSettles(sequence));
      if EventMatches(U.Download, sequence) {
        active := None;
        Publish(U.Error(U.Download, if candidate.Some? then Some(candidate.value.candidate) else None));
      }
      if downloadPromise == Some(sequence) {
        downloadPromise := None;
      }
      assert Model() == next;
      U.StepJustifies(cfg, old(Model()), U.DownloadSettles(sequence));
    }

    method RequestInstall(blocked: bool) returns (started: bool)
      requires Valid()
      modifies this
      ensures Valid() && Model() == U.Step(cfg, old(Model()), U.InstallRequest(blocked))
      ensures started <==> !blocked && old(install) == U.NoInstall
                           && (old(status).Downloaded? || (old(status).Error? && old(status).operation == U.Install && old(status).retry.Some?))
      ensures started ==> install.Active? && candidate == Some(install.cached) && downloaded == Some(install.target)
                          && install.cached.candidate.identity == install.target.candidate.identity && EventMatches(U.Install, install.sequence)
      ensures !started ==> journal == old(journal) && active == old(active)
      ensures status == old(status) && candidate == old(candidate) && downloaded == old(downloaded)
      ensures blocked && old(install) == U.NoInstall ==> install == U.Blocked(false)
    {
      ghost var next := U.Step(cfg, Model(), U.InstallRequest(blocked));
      U.InstallableIff(cfg, Model());
      if install != U.NoInstall {
        return false;
      }
      if blocked {
        install := U.Blocked(false);
        assert Model() == next;
        U.StepJustifies(cfg, old(Model()), U.InstallRequest(blocked));
        return false;
      }
      var retry := if status.Error? && status.operation == U.Install then status.retry else None;
      if !(status.Downloaded? || retry.Some?) || candidate.None? || downloaded.None?
         || (retry.Some? && !(U.SameCandidate(retry.value, candidate.value.candidate)
                              && U.SameCandidate(retry.value, downloaded.value.candidate))) {
        return false;
      }
      install := U.Active(operations + 1, candidate.value, downloaded.value, |journal|, U.Beginning);
      Begin(U.Install, U.InstallStarted(operations + 1, candidate.value.at, downloaded.value.at));
      assert Model() == next;
      U.StepJustifies(cfg, old(Model()), U.InstallRequest(blocked));
      return true;
    }

    // ---------- Engine events ----------

    method UpdateAvailable(operation: nat, found: U.Candidate)
      requires Valid()
      modifies this
      ensures Valid() && Model() == U.Step(cfg, old(Model()), U.UpdateAvailable(operation, found))
      ensures if !old(EventMatches(U.Check, operation)) || found.identity.channel != cfg.selected then Model() == old(Model())
              else if cfg.channelOf(found.identity.version) != Some(cfg.selected) || found.identity.tag != "v" + found.identity.version
              then candidate == None && downloaded == None && active == None && journal == old(journal) && status == U.Error(U.Check, None)
              else candidate == Some(U.Held(found, |old(journal)|)) && downloaded == None && active == None && status == U.Available(found)
                   && |journal| == |old(journal)| + 1 && journal[|old(journal)|].Announced?
    {
      ghost var next := U.Step(cfg, Model(), U.UpdateAvailable(operation, found));
      if !EventMatches(U.Check, operation) || found.identity.channel != cfg.selected {
        return;
      }
      if cfg.channelOf(found.identity.version) != Some(cfg.selected) || found.identity.tag != "v" + found.identity.version {
        active, candidate, downloaded := None, None, None;
        Publish(U.Error(U.Check, None));
        assert Model() == next;
        U.StepJustifies(cfg, old(Model()), U.UpdateAvailable(operation, found));
        return;
      }
      var checkAt := active.value.at;
      candidate, downloaded, active := Some(U.Held(found, |journal|)), None, None;
      journal := journal + [U.Announced(operation, found, checkAt)];
      Publish(U.Available(found));
      assert Model() == next;
      U.StepJustifies(cfg, old(Model()), U.UpdateAvailable(operation, found));
    }

    method UpdateNotAvailable(operation: nat)
      requires Valid()
      modifies this
      ensures Valid() && Model() == U.Step(cfg, old(Model()), U.UpdateNotAvailable(operation))
      ensures if old(EventMatches(U.Check, operation))
              then candidate == None && downloaded == None && active == None && journal == old(journal) && status == U.UpToDate
              else Model() == old(Model())
    {
      ghost var next := U.Step(cfg, Model(), U.UpdateNotAvailable(operation));
      if EventMatches(U.Check, operation) {
        candidate, downloaded, active := None, None, None;
        Publish(U.UpToDate);
      }
      assert Model() == next;
      U.StepJustifies(cfg, old(Model()), U.UpdateNotAvailable(operation));
    }

    method DownloadProgress(operation: nat)
      requires Valid()
      modifies this
      ensures Valid() && Model() == U.Step(cfg, old(Model()), U.DownloadProgress(operation))
      ensures candidate == old(candidate) && downloaded == old(downloaded) && active == old(active) && journal == old(journal)
      ensures status == old(status) && install == old(install)
    {
      ghost var next := U.Step(cfg, Model(), U.DownloadProgress(operation));
      if EventMatches(U.Download, operation) && candidate.Some? && status.Downloading? {
        Publish(U.Downloading(candidate.value.candidate));
      }
      assert Model() == next;
      U.StepJustifies(cfg, old(Model()), U.DownloadProgress(operation));
    }

    method UpdateDownloaded(operation: nat, found: U.Candidate)
      requires Valid()
      modifies this
      ensures Valid() && Model() == U.Step(cfg, old(Model()), U.UpdateDownloaded(operation, found))
      ensures if old(EventMatches(U.Download, operation)) && found.identity.channel == cfg.selected
                 && old(candidate).Some? && old(candidate).value.candidate.identity == found.identity
              then downloaded == Some(U.Held(found, |old(journal)|)) && active == None && candidate == old(candidate)
                   && status == U.Downloaded(candidate.value.candidate)
                   && |journal| == |old(journal)| + 1 && journal[|old(journal)|].DownloadAccepted?
              else Model() == old(Model())
    {
      ghost var next := U.Step(cfg, Model(), U.UpdateDownloaded(operation, found));
      if !EventMatches(U.Download, operation) || found.identity.channel != cfg.selected
         || candidate.None? || !U.SameCandidate(candidate.value.candidate, found) {
        return;
      }
      var downloadAt := active.value.at;
      downloaded, active := Some(U.Held(found, |journal|)), None;
      journal := journal + [U.DownloadAccepted(operation, found, downloadAt, candidate.value.at)];
      Publish(U.Downloaded(candidate.value.candidate));
      assert Model() == next;
      U.StepJustifies(cfg, old(Model()), U.UpdateDownloaded(operation, found));
    }

    method EngineError(kind: U.Kind, operation: nat)
      requires Valid() && kind != U.Install
      modifies this
      ensures Valid() && Model() == U.Step(cfg, old(Model()), U.EngineError(kind, operation))
      ensures candidate == old(candidate) && downloaded == old(downloaded) && install == old(install) && journal == old(journal)
      ensures old(EventMatches(kind, operation)) ==>
                active == None && status == U.Error(kind, if candidate.Some? then Some(candidate.value.candidate) else None)
      ensures !old(EventMatches(kind, operation)) ==> Model() == old(Model())
    {
      ghost var next := U.Step(cfg, Model(), U.EngineError(kind, operation));
      if EventMatches(kind, operation) {
        active := None;
        Publish(U.Error(kind, if candidate.Some? then Some(candidate.value.candidate) else None));
      }
      assert Model() == next;
      U.StepJustifies(cfg, old(Model()), U.EngineError(kind, operation));
    }

    // ---------- An install between its awaits ----------

    method InstallError(from: Option<nat>)
      requires install.Active?
      modifies this`active, this`status, this`published, this`install
      ensures active == None && status == U.Error(U.Install, Some(old(install).cached.candidate)) && published == old(published) + 1
      ensures install == old(install).(stage := U.Ended(from))
    {
      active := None;
      Publish(U.Error(U.Install, Some(install.cached.candidate)));
      install := install.(stage := U.Ended(from));
    }

    /** What was downloaded is compared with what was announced; the comparison never fails. */
    method InstallBegins()
      requires Valid() && install.Active? && install.stage == U.Beginning
      modifies this
      ensures Valid() && Model() == U.Step(cfg, old(Model()), U.InstallBegins)
      ensures install == old(install).(stage := U.Verifying) && status == old(status) && active == old(active) && journal == old(journal)
    {
      ghost var next := U.Step(cfg, Model(), U.InstallBegins);
      if U.SameCandidate(install.cached.candidate, install.target.candidate) {
        install := install.(stage := U.Verifying);
      } else {
        InstallError(None);
      }
      assert Model() == next;
      U.StepJustifies(cfg, old(Model()), U.InstallBegins);
      U.HeldAgree(cfg, old(Model()));
    }

    method InstallVerified(ok: bool)
      requires Valid() && install.Active? && install.stage == U.Verifying
      modifies this
      ensures Valid() && Model() == U.Step(cfg, old(Model()), U.InstallVerified(ok))
      ensures if ok && old(EventMatches(U.Install, install.sequence)) then install.stage == U.Counting(|old(journal)|) && |journal| == |old(journal)| + 1 && journal[|old(journal)|].Verified?
              else install.stage == U.Ended(None) && journal == old(journal)
      ensures if ok then status == old(status) && active == old(active)
              else status == U.Error(U.Install, Some(install.cached.candidate)) && active == None
    {
      ghost var next := U.Step(cfg, Model(), U.InstallVerified(ok));
      if !ok {
        InstallError(None);
      } else if !EventMatches(U.Install, install.sequence) {
        install := install.(stage := U.Ended(None));
      } else {
        var at := |journal|;
        journal := journal + [U.Verified(install.sequence, install.target.candidate, install.at)];
        install := install.(stage := U.Counting(at));
      }
      assert Model() == next;
      U.StepJustifies(cfg, old(Model()), U.InstallVerified(ok));
    }

    method SessionsCounted()
      requires Valid() && install.Active? && install.stage.Counting?
      modifies this
      ensures Valid() && Model() == U.Step(cfg, old(Model()), U.SessionsCounted)
      ensures journal == old(journal) && status == old(status) && active == old(active)
      ensures install.stage == if old(EventMatches(U.Install, install.sequence)) then U.Confirming(old(install).stage.verifiedAt) else U.Ended(None)
    {
      ghost var next := U.Step(cfg, Model(), U.SessionsCounted);
      if EventMatches(U.Install, install.sequence) {
        install := install.(stage := U.Confirming(install.stage.verifiedAt));
      } else {
        install := install.(stage := U.Ended(None));
      }
      assert Model() == next;
      U.StepJustifies(cfg, old(Model()), U.SessionsCounted);
    }

    method Confirm()
      requires install.Active? && install.stage.Confirming?
      modifies this`journal, this`install, this`status, this`published
      ensures Model() == U.Confirm(old(Model()))
    {
      var at := |journal|;
      journal := journal + [U.Confirmed(install.sequence, install.cached.candidate, install.stage.verifiedAt)];
      install := install.(stage := U.Running(at));
      Publish(U.Installing(install.cached.candidate));
    }

    method InstallAnswered(answer: Option<bool>)
      requires Valid() && install.Active? && install.stage.Confirming?
      modifies this
      ensures Valid() && Model() == U.Step(cfg, old(Model()), U.InstallAnswered(answer))
      ensures if answer == Some(true) && old(EventMatches(U.Install, install.sequence))
              then install.stage == U.Running(|old(journal)|) && status == U.Installing(install.cached.candidate)
                   && |journal| == |old(journal)| + 1 && journal[|old(journal)|].Confirmed?
              else install.stage == U.Ended(None) && journal == old(journal)
      ensures answer == None ==> status == U.Error(U.Install, Some(install.cached.candidate)) && active == None
      ensures answer.Some? && !old(EventMatches(U.Install, install.sequence)) ==> status == old(status) && active == old(active)
      ensures answer == Some(false) && old(EventMatches(U.Install, install.sequence)) ==>
                status == U.Downloaded(install.cached.candidate) && active == None
    {
      ghost var next := U.Step(cfg, Model(), U.InstallAnswered(answer));
      if answer.None? {
        InstallError(None);
      } else if !EventMatches(U.Install, install.sequence) {
        install := install.(stage := U.Ended(None));
      } else if !answer.value {
        active := None;
        Publish(U.Downloaded(install.cached.candidate));
        install := install.(stage := U.Ended(None));
      } else {
        Confirm();
      }
      assert Model() == next;
      U.StepJustifies(cfg, old(Model()), U.InstallAnswered(answer));
    }

    /** The callback handed to whoever runs the install. */
    method Install() returns (quits: bool)
      requires Valid() && U.CallbackFrom(install).Some?
      modifies this
      ensures Valid() && Model() == U.Step(cfg, old(Model()), U.InstallRuns)
      ensures quits <==> old(EventMatches(U.Install, install.sequence))
      ensures quits ==> |journal| == |old(journal)| + 1 && journal[|old(journal)|].QuitAndInstall? && U.Justified(cfg, journal, |old(journal)|)
      ensures !quits ==> Model() == old(Model())
      ensures status == old(status) && install == old(install)
    {
      ghost var next := U.Step(cfg, Model(), U.InstallRuns);
      quits := EventMatches(U.Install, install.sequence);
      if quits {
        journal := journal + [U.QuitAndInstall(install.sequence, candidate, U.CallbackFrom(install).value)];
      }
      assert Model() == next;
      U.StepJustifies(cfg, old(Model()), U.InstallRuns);
    }

    method InstallFinishes(failed: bool)
      requires Valid() && install.Active? && install.stage.Running?
      modifies this
      ensures Valid() && Model() == U.Step(cfg, old(Model()), if failed then U.InstallFails else U.InstallReturns)
      ensures install == old(install).(stage := U.Ended(Some(old(install).stage.confirmedAt))) && journal == old(journal)
      ensures if failed then status == U.Error(U.Install, Some(install.cached.candidate)) && active == None
              else status == old(status) && active == old(active)
    {
      ghost var next := U.Step(cfg, Model(), if failed then U.InstallFails else U.InstallReturns);
      if failed {
        InstallError(Some(install.stage.confirmedAt));
      } else {
        install := install.(stage := U.Ended(Some(install.stage.confirmedAt)));
      }
      assert Model() == next;
      U.StepJustifies(cfg, old(Model()), if failed then U.InstallFails else U.InstallReturns);
    }

    method InstallSettles()
      requires Valid()
      modifies this
      ensures Valid() && Model() == U.Step(cfg, old(Model()), U.InstallSettles)
      ensures journal == old(journal) && candidate == old(candidate) && downloaded == old(downloaded)
      ensures if old(install) == U.Blocked(false) then status == U.Error(U.Install, None) && install == U.Blocked(true) else status == old(status)
      ensures old(install) == U.Blocked(true) ==> install == U.NoInstall
      ensures old(install).Active? && old(install).stage.Ended? ==> install == U.NoInstall && !EventMatches(U.Install, old(install).sequence)
    {
      ghost var next := U.Step(cfg, Model(), U.InstallSettles);
      match install {
        case NoInstall =>
        case Blocked(publishedBefore) =>
          if publishedBefore {
            install := U.NoInstall;
          } else {
            install := U.Blocked(true);
            Publish(U.Error(U.Install, None));
          }
        case Active(sequence, _, _, _, stage) =>
          if stage.Ended? {
            install := U.NoInstall;
            if EventMatches(U.Install, sequence) {
              active := None;
            }
          }
      }
      assert Model() == next;
      U.StepJustifies(cfg, old(Model()), U.InstallSettles);
    }

    // ---------- Any event ----------

    method HandleInstall(e: U.Event)
      requires Valid() && install.Active?
      modifies this
      ensures Valid() && Model() == U.InstallStep(old(Model()), e)
    {
      match e {
        case InstallBegins => if install.stage == U.Beginning { InstallBegins(); }
        case InstallVerified(ok) => if install.stage == U.Verifying { InstallVerified(ok); }
        case SessionsCounted => if install.stage.Counting? { SessionsCounted(); }
        case InstallAnswered(answer) => if install.stage.Confirming? { InstallAnswered(answer); }
        case InstallRuns => if U.CallbackFrom(install).Some? { var _ := Install(); }
        case InstallFails => if install.stage.Running? { InstallFinishes(true); }
        case InstallReturns => if install.stage.Running? { InstallFinishes(false); }
        case _ =>
      }
    }

    /** Whatever happens next, in the state the object is in. */
    method Handle(e: U.Event)
      requires Valid()
      modifies this
      ensures Valid() && Model() == U.Step(cfg, old(Model()), e)
    {
      match e {
        case CheckStart => var _ := Check();
        case DownloadStart => var _ := Download();
        case InstallRequest(blocked) => var _ := RequestInstall(blocked);
        case UpdateAvailable(operation, found) => UpdateAvailable(operation, found);
        case UpdateNotAvailable(operation) => UpdateNotAvailable(operation);
        case DownloadProgress(operation) => DownloadProgress(operation);
        case UpdateDownloaded(operation, found) => UpdateDownloaded(operation, found);
        case EngineError(kind, operation) => if kind != U.Install { EngineError(kind, operation); }
        case CheckSettles(sequence, failed) => CheckSettles(sequence, failed);
        case DownloadSettles(sequence) => DownloadSettles(sequence);
        case InstallSettles => InstallSettles();
        case _ => if install.Active? { HandleInstall(e); }
      }
    }
  }

  /** A new object handling any events in any order: each of its quits was justified. */
  method Serve(cfg: U.Config, es: seq<U.Event>) returns (u: Service)
    ensures fresh(u) && u.cfg == cfg && u.Valid() && u.Model() == U.Run(cfg, U.Initial, es)
    ensures forall k :: 0 <= k < |u.journal| && u.journal[k].QuitAndInstall? ==> U.QuitAt(cfg, u.journal, k)
    ensures U.StatusInv(u.Model())
  {
    u := new Service(cfg);
    for i := 0 to |es|
      invariant fresh(u) && u.cfg == cfg && u.Valid() && u.Model() == U.Run(cfg, U.Initial, es[..i])
    {
      U.RunSnoc(cfg, U.Initial, es[..i], es[i]);
      assert es[..i + 1] == es[..i] + [es[i]];
      u.Handle(es[i]);
    }
    assert es[..|es|] == es;
    forall k | 0 <= k < |u.journal| && u.journal[k].QuitAndInstall?
      ensures U.QuitAt(cfg, u.journal, k)
    {
      assert U.Justified(cfg, u.journal, k);
    }
  }
}
