/**
 The update service as a state machine. The engine is adversarial: it may deliver
 any event at any time under any operation number, settle its promises in any
 order, and run the install callback late or repeatedly. A journal records what
 was started and accepted; each entry names the earlier entries it rests on.
 */
module UpdateService {
  import opened Wrappers

  // ---------- Data ----------

  datatype Channel = Latest | Nightly

  datatype Identity = Identity(
    channel: Channel,
    version: string,
    tag: string,
    metadataUrl: string,
    metadataDigest: string,
    payloadDigest: string)

  datatype Candidate = Candidate(identity: Identity, releaseNotes: Option<string>, publishedAt: Option<string>)

  /** A candidate and the journal entry that brought it. */
  datatype Held = Held(candidate: Candidate, at: nat)

  datatype Kind = Check | Download | Install

  datatype Operation = Operation(kind: Kind, sequence: nat, at: nat)

  datatype Status =
    | NeverChecked
    | Checking
    | UpToDate
    | Available(candidate: Candidate)
    | Downloading(candidate: Candidate)
    | Downloaded(candidate: Candidate)
    | Installing(candidate: Candidate)
    | Error(operation: Kind, retry: Option<Candidate>)

  datatype Stage = Beginning | Verifying | Counting(verifiedAt: nat) | Confirming(verifiedAt: nat) | Running(confirmedAt: nat) | Ended(ranFrom: Option<nat>)

  datatype InstallSlot =
    | NoInstall
    | Blocked(published: bool)
    | Active(sequence: nat, cached: Held, target: Held, at: nat, stage: Stage)

  datatype Entry =
    | CheckStarted(sequence: nat)
    | Announced(sequence: nat, candidate: Candidate, checkAt: nat)
    | DownloadStarted(sequence: nat)
    | DownloadAccepted(sequence: nat, candidate: Candidate, downloadAt: nat, announcedAt: nat)
    | InstallStarted(sequence: nat, announcedAt: nat, downloadedAt: nat)
    | Verified(sequence: nat, candidate: Candidate, startAt: nat)
    | Confirmed(sequence: nat, candidate: Candidate, verifiedAt: nat)
    | QuitAndInstall(sequence: nat, held: Option<Held>, confirmedAt: nat)

  datatype State = State(
    status: Status,
    published: nat,
    candidate: Option<Held>,
    downloaded: Option<Held>,
    operations: nat,
    active: Option<Operation>,
    checkPromise: Option<nat>,
    downloadPromise: Option<nat>,
    install: InstallSlot,
    journal: seq<Entry>)

  datatype Event =
    | CheckStart
    | DownloadStart
    | InstallRequest(blocked: bool)
    | UpdateAvailable(operation: nat, found: Candidate)
    | UpdateNotAvailable(operation: nat)
    | DownloadProgress(operation: nat)
    | UpdateDownloaded(operation: nat, found: Candidate)
    | EngineError(kind: Kind, operation: nat)
    | CheckSettles(sequence: nat, failed: bool)
    | DownloadSettles(sequence: nat)
    | InstallBegins
    | InstallVerified(ok: bool)
    | SessionsCounted
    | InstallAnswered(answer: Option<bool>)
    | InstallRuns
    | InstallFails
    | InstallReturns
    | InstallSettles

  /** The selected channel, and how a version determines one. */
  datatype Config = Config(selected: Channel, channelOf: string -> Option<Channel>)

  const Initial := State(NeverChecked, 0, None, None, 0, None, None, None, NoInstall, [])

  // ---------- Steps ----------

  predicate SameCandidate(a: Candidate, b: Candidate) {
    && a.identity.channel == b.identity.channel && a.identity.version == b.identity.version
    && a.identity.tag == b.identity.tag && a.identity.metadataUrl == b.identity.metadataUrl
    && a.identity.metadataDigest == b.identity.metadataDigest && a.identity.payloadDigest == b.identity.payloadDigest
  }

  predicate TagFits(cfg: Config, c: Candidate) {
    cfg.channelOf(c.identity.version) == Some(cfg.selected) && c.identity.tag == "v" + c.identity.version
  }

  predicate EventMatches(s: State, kind: Kind, operation: nat) {
    s.active.Some? && s.active.value.kind == kind && s.active.value.sequence == operation
  }

  function Publish(s: State, status: Status): State {
    s.(status := status, published := s.published + 1)
  }

  function Record(s: State, e: Entry): State {
    s.(journal := s.journal + [e])
  }

  /** Begin an operation of the given kind with a journal entry. */
  function Begin(s: State, kind: Kind, e: Entry): State {
    Record(s.(operations := s.operations + 1, active := Some(Operation(kind, s.operations + 1, |s.journal|))), e)
  }

  function OnCheckStart(s: State): State {
    if s.install != NoInstall || s.checkPromise.Some? then s
    else Publish(Begin(s.(checkPromise := Some(s.operations + 1)), Check, CheckStarted(s.operations + 1)), Checking)
  }

  function OnDownloadStart(s: State): State {
    if s.install != NoInstall || s.checkPromise.Some? || s.downloadPromise.Some? || s.candidate.None? then s
    else Publish(Begin(s.(downloadPromise := Some(s.operations + 1)), Download, DownloadStarted(s.operations + 1)),
                 Downloading(s.candidate.value.candidate))
  }

  /** The candidate that a failed install offers to retry. */
  function RetryCandidate(s: State): Option<Candidate> {
    if s.status.Error? && s.status.operation == Install then s.status.retry else None
  }

  predicate Installable(s: State) {
    && (s.status.Downloaded? || RetryCandidate(s).Some?) && s.candidate.Some? && s.downloaded.Some?
    && (RetryCandidate(s).Some? ==>
          && SameCandidate(RetryCandidate(s).value, s.candidate.value.candidate)
          && SameCandidate(RetryCandidate(s).value, s.downloaded.value.candidate))
  }

  function OnInstallRequest(s: State, blocked: bool): State {
    if s.install != NoInstall then s
    else if blocked then s.(install := Blocked(false))
    else if !Installable(s) then s
    else
      var cached, target := s.candidate.value, s.downloaded.value;
      Begin(s.(install := Active(s.operations + 1, cached, target, |s.journal|, Beginning)), Install,
            InstallStarted(s.operations + 1, cached.at, target.at))
  }

  function OnUpdateAvailable(cfg: Config, s: State, operation: nat, found: Candidate): State {
    if !EventMatches(s, Check, operation) || found.identity.channel != cfg.selected then s
    else if !TagFits(cfg, found) then Publish(s.(active := None, candidate := None, downloaded := None), Error(Check, None))
    else Publish(Record(s.(candidate := Some(Held(found, |s.journal|)), downloaded := None, active := None),
                        Announced(operation, found, s.active.value.at)), Available(found))
  }

  function OnUpdateDownloaded(cfg: Config, s: State, operation: nat, found: Candidate): State {
    if !EventMatches(s, Download, operation) || found.identity.channel != cfg.selected
       || s.candidate.None? || !SameCandidate(s.candidate.value.candidate, found) then s
    else Publish(Record(s.(downloaded := Some(Held(found, |s.journal|)), active := None),
                        DownloadAccepted(operation, found, s.active.value.at, s.candidate.value.at)),
                 Downloaded(s.candidate.value.candidate))
  }

  function OnEngineError(s: State, kind: Kind, operation: nat): State {
    if kind == Install || !EventMatches(s, kind, operation) then s
    else Publish(s.(active := None), Error(kind, if s.candidate.Some? then Some(s.candidate.value.candidate) else None))
  }

  function OnCheckSettles(s: State, sequence: nat, failed: bool): State {
    var s1 := if !EventMatches(s, Check, sequence) then s
              else if failed then Publish(s.(active := None), Error(Check, None))
              else Publish(s.(active := None, candidate := None), UpToDate);
    if s1.checkPromise == Some(sequence) then s1.(checkPromise := None) else s1
  }

  /** A download that ends without its event is an error, whether it resolves or rejects. */
  function OnDownloadSettles(s: State, sequence: nat): State {
    var s1 := if !EventMatches(s, Download, sequence) then s
              else Publish(s.(active := None), Error(Download, if s.candidate.Some? then Some(s.candidate.value.candidate) else None));
    if s1.downloadPromise == Some(sequence) then s1.(downloadPromise := None) else s1
  }

  predicate IsCurrent(s: State)
    requires s.install.Active?
  {
    EventMatches(s, Install, s.install.sequence)
  }

  function End(s: State, ranFrom: Option<nat>): State
    requires s.install.Active?
  {
    s.(install := s.install.(stage := Ended(ranFrom)))
  }

  function InstallError(s: State, ranFrom: Option<nat>): State
    requires s.install.Active?
  {
    End(Publish(s.(active := None), Error(Install, Some(s.install.cached.candidate))), ranFrom)
  }

  function OnInstallBegins(s: State): State
    requires s.install.Active?
  {
    if s.install.stage != Beginning then s
    else if !SameCandidate(s.install.cached.candidate, s.install.target.candidate) then InstallError(s, None)
    else s.(install := s.install.(stage := Verifying))
  }

  function OnInstallVerified(s: State, ok: bool): State
    requires s.install.Active?
  {
    if s.install.stage != Verifying then s
    else if !ok then InstallError(s, None)
    else if !IsCurrent(s) then End(s, None)
    else Record(s.(install := s.install.(stage := Counting(|s.journal|))),
                Verified(s.install.sequence, s.install.target.candidate, s.install.at))
  }

  function OnSessionsCounted(s: State): State
    requires s.install.Active?
  {
    if !s.install.stage.Counting? then s
    else if !IsCurrent(s) then End(s, None)
    else s.(install := s.install.(stage := Confirming(s.install.stage.verifiedAt)))
  }

  /** The user has confirmed: from here on the callback may quit. */
  function Confirm(s: State): State
    requires s.install.Active? && s.install.stage.Confirming?
  {
    Publish(Record(s.(install := s.install.(stage := Running(|s.journal|))),
                   Confirmed(s.install.sequence, s.install.cached.candidate, s.install.stage.verifiedAt)),
            Installing(s.install.cached.candidate))
  }

  function OnInstallAnswered(s: State, answer: Option<bool>): State
    requires s.install.Active?
  {
    if !s.install.stage.Confirming? then s
    else if answer.None? then InstallError(s, None)
    else if !IsCurrent(s) then End(s, None)
    else if !answer.value then End(Publish(s.(active := None), Downloaded(s.install.cached.candidate)), None)
    else Confirm(s)
  }

  /** Where the install callback's operation was confirmed, once it exists. */
  function CallbackFrom(slot: InstallSlot): Option<nat> {
    if !slot.Active? then None
    else if slot.stage.Running? then Some(slot.stage.confirmedAt)
    else if slot.stage.Ended? then slot.stage.ranFrom
    else None
  }

  /** The callback may be run by others at any time; it checks that its operation is still current. */
  function OnInstallRuns(s: State): State {
    var from := CallbackFrom(s.install);
    if from.None? || !IsCurrent(s) then s
    else Record(s, QuitAndInstall(s.install.sequence, s.candidate, from.value))
  }

  function OnInstallSettles(s: State): State {
    match s.install
    case NoInstall => s
    case Blocked(false) => Publish(s.(install := Blocked(true)), Error(Install, None))
    case Blocked(true) => s.(install := NoInstall)
    case Active(_, _, _, _, stage) =>
      if !stage.Ended? then s
      else s.(install := NoInstall, active := if IsCurrent(s) then None else s.active)
  }

  function InstallStep(s: State, e: Event): State
    requires s.install.Active?
  {
    match e
    case InstallBegins => OnInstallBegins(s)
    case InstallVerified(ok) => OnInstallVerified(s, ok)
    case SessionsCounted => OnSessionsCounted(s)
    case InstallAnswered(answer) => OnInstallAnswered(s, answer)
    case InstallRuns => OnInstallRuns(s)
    case InstallFails => if s.install.stage.Running? then InstallError(s, Some(s.install.stage.confirmedAt)) else s
    case InstallReturns => if s.install.stage.Running? then End(s, Some(s.install.stage.confirmedAt)) else s
    case _ => s
  }

  function Step(cfg: Config, s: State, e: Event): State {
    match e
    case CheckStart => OnCheckStart(s)
    case DownloadStart => OnDownloadStart(s)
    case InstallRequest(blocked) => OnInstallRequest(s, blocked)
    case UpdateAvailable(operation, found) => OnUpdateAvailable(cfg, s, operation, found)
    case UpdateNotAvailable(operation) =>
      if !EventMatches(s, Check, operation) then s
      else Publish(s.(candidate := None, downloaded := None, active := None), UpToDate)
    case DownloadProgress(operation) =>
      if !EventMatches(s, Download, operation) || s.candidate.None? || !s.status.Downloading? then s
      else Publish(s, Downloading(s.candidate.value.candidate))
    case UpdateDownloaded(operation, found) => OnUpdateDownloaded(cfg, s, operation, found)
    case EngineError(kind, operation) => OnEngineError(s, kind, operation)
    case CheckSettles(sequence, failed) => OnCheckSettles(s, sequence, failed)
    case DownloadSettles(sequence) => OnDownloadSettles(s, sequence)
    case InstallSettles => OnInstallSettles(s)
    case _ => if s.install.Active? then InstallStep(s, e) else s
  }

  function Run(cfg: Config, s: State, es: seq<Event>): State
    decreases |es|
  {
    if es == [] then s else Run(cfg, Step(cfg, s, es[0]), es[1..])
  }

  // ---------- What every journal satisfies ----------

  /** No check and no download starts strictly between two places. */
  predicate NoStart(j: seq<Entry>, from: nat, to: nat)
    requires to <= |j|
  {
    forall m :: from < m < to ==> !j[m].CheckStarted? && !j[m].DownloadStarted?
  }

  /** Announced by the check that was running, on the selected channel, with a fitting version and tag. */
  predicate AnnouncedAt(cfg: Config, j: seq<Entry>, at: nat)
    requires at < |j|
  {
    && j[at].Announced? && j[at].checkAt < at && j[j[at].checkAt] == CheckStarted(j[at].sequence)
    && NoStart(j, j[at].checkAt, at)
    && j[at].candidate.identity.channel == cfg.selected
    && cfg.channelOf(j[at].candidate.identity.version) == Some(cfg.selected)
    && j[at].candidate.identity.tag == "v" + j[at].candidate.identity.version
  }

  /** Downloaded by the download that was running, started after the announcement, with the same identity. */
  predicate DownloadedAt(cfg: Config, j: seq<Entry>, at: nat)
    requires at < |j|
  {
    && j[at].DownloadAccepted?
    && j[at].announcedAt < j[at].downloadAt < at && j[j[at].downloadAt] == DownloadStarted(j[at].sequence)
    && NoStart(j, j[at].downloadAt, at)
    && AnnouncedAt(cfg, j, j[at].announcedAt)
    && j[j[at].announcedAt].candidate.identity == j[at].candidate.identity
  }

  predicate StartedAt(cfg: Config, j: seq<Entry>, at: nat)
    requires at < |j|
  {
    && j[at].InstallStarted? && j[at].downloadedAt < at
    && DownloadedAt(cfg, j, j[at].downloadedAt) && j[j[at].downloadedAt].announcedAt == j[at].announcedAt
    && NoStart(j, j[j[at].downloadedAt].downloadAt, at)
  }

  predicate VerifiedAt(cfg: Config, j: seq<Entry>, at: nat)
    requires at < |j|
  {
    && j[at].Verified? && j[at].startAt < at
    && StartedAt(cfg, j, j[at].startAt) && j[j[at].startAt].sequence == j[at].sequence
    && j[j[j[at].startAt].downloadedAt].candidate == j[at].candidate
  }

  predicate ConfirmedAt(cfg: Config, j: seq<Entry>, at: nat)
    requires at < |j|
  {
    && j[at].Confirmed? && j[at].verifiedAt < at
    && VerifiedAt(cfg, j, j[at].verifiedAt) && j[j[at].verifiedAt].sequence == j[at].sequence
    && j[j[j[j[at].verifiedAt].startAt].announcedAt].candidate == j[at].candidate
  }

  /** The download behind a confirmed install. */
  function DownloadBehind(cfg: Config, j: seq<Entry>, at: nat): nat
    requires at < |j| && ConfirmedAt(cfg, j, at)
  {
    j[j[j[j[at].verifiedAt].startAt].downloadedAt].downloadAt
  }

  function AnnouncementBehind(cfg: Config, j: seq<Entry>, at: nat): nat
    requires at < |j| && ConfirmedAt(cfg, j, at)
  {
    j[j[j[at].verifiedAt].startAt].announcedAt
  }

  /**
   The candidate held when quitAndInstall ran is the announced one behind a confirmation
   given in the same install, and nothing has started since its download did.
   */
  predicate QuitAt(cfg: Config, j: seq<Entry>, at: nat)
    requires at < |j|
  {
    && j[at].QuitAndInstall? && j[at].confirmedAt < at
    && ConfirmedAt(cfg, j, j[at].confirmedAt) && j[j[at].confirmedAt].sequence == j[at].sequence
    && j[at].held == Some(Held(j[j[at].confirmedAt].candidate, AnnouncementBehind(cfg, j, j[at].confirmedAt)))
    && NoStart(j, DownloadBehind(cfg, j, j[at].confirmedAt), at)
  }

  predicate Justified(cfg: Config, j: seq<Entry>, k: nat)
    requires k < |j|
  {
    match j[k]
    case CheckStarted(_) => true
    case DownloadStarted(_) => true
    case Announced(_, _, _) => AnnouncedAt(cfg, j, k)
    case DownloadAccepted(_, _, _, _) => DownloadedAt(cfg, j, k)
    case InstallStarted(_, _, _) => StartedAt(cfg, j, k)
    case Verified(_, _, _) => VerifiedAt(cfg, j, k)
    case Confirmed(_, _, _) => ConfirmedAt(cfg, j, k)
    case QuitAndInstall(_, _, _) => QuitAt(cfg, j, k)
  }

  predicate AllJustified(cfg: Config, j: seq<Entry>) {
    forall k :: 0 <= k < |j| ==> Justified(cfg, j, k)
  }

  // ---------- Invariant ----------

  predicate ActiveInv(s: State) {
    s.active.Some? ==>
      var Operation(kind, n, at) := s.active.value;
      match kind
      case Check => at < |s.journal| && s.journal[at] == CheckStarted(n) && NoStart(s.journal, at, |s.journal|)
      case Download =>
        && at < |s.journal| && s.journal[at] == DownloadStarted(n) && NoStart(s.journal, at, |s.journal|)
        && s.candidate.Some? && s.candidate.value.at < at
      case Install => true
  }

  predicate HeldInv(s: State) {
    && (s.candidate.Some? ==>
          var c := s.candidate.value;
          c.at < |s.journal| && s.journal[c.at].Announced? && s.journal[c.at].candidate == c.candidate)
    && (s.downloaded.Some? ==>
          var d := s.downloaded.value;
          d.at < |s.journal| && s.journal[d.at].DownloadAccepted? && s.journal[d.at].candidate == d.candidate)
  }

  /** What is held is one announced and downloaded candidate, and nothing has started since its download did. */
  predicate Ready(s: State) {
    && s.candidate.Some? && s.downloaded.Some?
    && (s.active.Some? ==> s.active.value.kind == Install)
    && ReadyFrom(s.journal, s.candidate.value.at, s.downloaded.value.at)
  }

  predicate ReadyFrom(j: seq<Entry>, announcedAt: nat, downloadedAt: nat) {
    && downloadedAt < |j| && j[downloadedAt].DownloadAccepted? && j[downloadedAt].announcedAt == announcedAt
    && NoStart(j, j[downloadedAt].downloadAt, |j|)
  }

  predicate VerifiedBy(s: State, v: nat)
    requires s.install.Active?
  {
    v < |s.journal| && s.journal[v] == Verified(s.install.sequence, s.install.target.candidate, s.install.at)
  }

  predicate ConfirmedBy(s: State, c: nat)
    requires s.install.Active?
  {
    && c < |s.journal| && s.journal[c].Confirmed?
    && s.journal[c].sequence == s.install.sequence && s.journal[c].candidate == s.install.cached.candidate
    && s.journal[c].verifiedAt < c && VerifiedBy(s, s.journal[c].verifiedAt)
  }

  predicate StageInv(s: State)
    requires s.install.Active?
  {
    match s.install.stage
    case Beginning | Verifying => true
    case Counting(v) => VerifiedBy(s, v)
    case Confirming(v) => VerifiedBy(s, v)
    case Running(c) => ConfirmedBy(s, c)
    case Ended(from) => from.Some? ==> ConfirmedBy(s, from.value)
  }

  predicate SlotInv(s: State) {
    s.install.Active? ==>
      && Ready(s) && s.candidate == Some(s.install.cached) && s.downloaded == Some(s.install.target)
      && s.install.at < |s.journal|
      && s.journal[s.install.at] == InstallStarted(s.install.sequence, s.install.cached.at, s.install.target.at)
      && StageInv(s)
  }

  predicate Offers(s: State) {
    s.status.Downloaded? || s.status.Installing? || RetryCandidate(s).Some?
  }

  predicate Inv(cfg: Config, s: State) {
    && AllJustified(cfg, s.journal) && ActiveInv(s) && HeldInv(s) && SlotInv(s)
    && (Offers(s) ==> Ready(s))
  }

  lemma {:induction false} JustifiedStays(cfg: Config, j: seq<Entry>, e: Entry)
    requires AllJustified(cfg, j) && Justified(cfg, j + [e], |j|)
    ensures AllJustified(cfg, j + [e])
  {
    var j' := j + [e];
    assert forall m :: 0 <= m < |j| ==> j'[m] == j[m];
    forall k | 0 <= k < |j'|
      ensures Justified(cfg, j', k)
    {
      if k < |j| {
        JustifiedExtends(cfg, j, e, k);
      }
    }
  }

  lemma {:induction false} AnnouncedExtends(cfg: Config, j: seq<Entry>, e: Entry, k: nat)
    requires k < |j| && AnnouncedAt(cfg, j, k)
    ensures AnnouncedAt(cfg, j + [e], k)
  {
    assert forall m :: 0 <= m < |j| ==> (j + [e])[m] == j[m];
  }

  lemma {:induction false} DownloadedExtends(cfg: Config, j: seq<Entry>, e: Entry, k: nat)
    requires k < |j| && DownloadedAt(cfg, j, k)
    ensures DownloadedAt(cfg, j + [e], k)
  {
    AnnouncedExtends(cfg, j, e, j[k].announcedAt);
    assert forall m :: 0 <= m < |j| ==> (j + [e])[m] == j[m];
  }

  lemma {:induction false} StartedExtends(cfg: Config, j: seq<Entry>, e: Entry, k: nat)
    requires k < |j| && StartedAt(cfg, j, k)
    ensures StartedAt(cfg, j + [e], k)
  {
    DownloadedExtends(cfg, j, e, j[k].downloadedAt);
    assert forall m :: 0 <= m < |j| ==> (j + [e])[m] == j[m];
  }

  lemma {:induction false} VerifiedExtends(cfg: Config, j: seq<Entry>, e: Entry, k: nat)
    requires k < |j| && VerifiedAt(cfg, j, k)
    ensures VerifiedAt(cfg, j + [e], k)
  {
    StartedExtends(cfg, j, e, j[k].startAt);
    assert forall m :: 0 <= m < |j| ==> (j + [e])[m] == j[m];
  }

  lemma {:induction false} ConfirmedExtends(cfg: Config, j: seq<Entry>, e: Entry, k: nat)
    requires k < |j| && ConfirmedAt(cfg, j, k)
    ensures ConfirmedAt(cfg, j + [e], k)
  {
    VerifiedExtends(cfg, j, e, j[k].verifiedAt);
    assert forall m :: 0 <= m < |j| ==> (j + [e])[m] == j[m];
  }

  lemma {:induction false} QuitExtends(cfg: Config, j: seq<Entry>, e: Entry, k: nat)
    requires k < |j| && QuitAt(cfg, j, k)
    ensures QuitAt(cfg, j + [e], k)
  {
    ConfirmedExtends(cfg, j, e, j[k].confirmedAt);
    assert forall m :: 0 <= m < |j| ==> (j + [e])[m] == j[m];
  }

  lemma {:induction false} JustifiedExtends(cfg: Config, j: seq<Entry>, e: Entry, k: nat)
    requires k < |j| && Justified(cfg, j, k)
    ensures Justified(cfg, j + [e], k)
  {
    assert (j + [e])[k] == j[k];
    match j[k] {
      case CheckStarted(_) =>
      case DownloadStarted(_) =>
      case Announced(_, _, _) => AnnouncedExtends(cfg, j, e, k);
      case DownloadAccepted(_, _, _, _) => DownloadedExtends(cfg, j, e, k);
      case InstallStarted(_, _, _) => StartedExtends(cfg, j, e, k);
      case Verified(_, _, _) => VerifiedExtends(cfg, j, e, k);
      case Confirmed(_, _, _) => ConfirmedExtends(cfg, j, e, k);
      case QuitAndInstall(_, _, _) => QuitExtends(cfg, j, e, k);
    }
  }

  lemma {:induction false} StartsKeepInv(cfg: Config, s: State)
    requires Inv(cfg, s)
    ensures Inv(cfg, OnCheckStart(s)) && Inv(cfg, OnDownloadStart(s))
  {
    JustifiedStays(cfg, s.journal, CheckStarted(s.operations + 1));
    JustifiedStays(cfg, s.journal, DownloadStarted(s.operations + 1));
  }

  lemma {:induction false} InstallRequestKeepsInv(cfg: Config, s: State, blocked: bool)
    requires Inv(cfg, s)
    ensures Inv(cfg, OnInstallRequest(s, blocked))
  {
    if s.install == NoInstall && !blocked && Installable(s) {
      var c, d := s.candidate.value.at, s.downloaded.value.at;
      var e := InstallStarted(s.operations + 1, c, d);
      assert Justified(cfg, s.journal, d);
      JustifiedExtends(cfg, s.journal, e, d);
      JustifiedStays(cfg, s.journal, e);
    }
  }

  lemma {:induction false} AvailableKeepsInv(cfg: Config, s: State, operation: nat, found: Candidate)
    requires Inv(cfg, s)
    ensures Inv(cfg, OnUpdateAvailable(cfg, s, operation, found))
  {
    if EventMatches(s, Check, operation) && found.identity.channel == cfg.selected && TagFits(cfg, found) {
      JustifiedStays(cfg, s.journal, Announced(operation, found, s.active.value.at));
    }
  }

  lemma {:induction false} DownloadedKeepsInv(cfg: Config, s: State, operation: nat, found: Candidate)
    requires Inv(cfg, s)
    ensures Inv(cfg, OnUpdateDownloaded(cfg, s, operation, found))
  {
    var t := OnUpdateDownloaded(cfg, s, operation, found);
    if t != s {
      var c := s.candidate.value.at;
      var e := DownloadAccepted(operation, found, s.active.value.at, c);
      assert Justified(cfg, s.journal, c);
      JustifiedExtends(cfg, s.journal, e, c);
      JustifiedStays(cfg, s.journal, e);
    }
  }

  lemma {:induction false} VerifiedKeepsInv(cfg: Config, s: State, ok: bool)
    requires Inv(cfg, s) && s.install.Active?
    ensures Inv(cfg, OnInstallVerified(s, ok))
  {
    if s.install.stage == Verifying && ok && IsCurrent(s) {
      var e := Verified(s.install.sequence, s.install.target.candidate, s.install.at);
      assert Justified(cfg, s.journal, s.install.at);
      JustifiedExtends(cfg, s.journal, e, s.install.at);
      JustifiedStays(cfg, s.journal, e);
    }
  }

  lemma {:induction false} AnsweredKeepsInv(cfg: Config, s: State, answer: Option<bool>)
    requires Inv(cfg, s) && s.install.Active?
    ensures Inv(cfg, OnInstallAnswered(s, answer))
  {
    if s.install.stage.Confirming? && answer == Some(true) && IsCurrent(s) {
      var v := s.install.stage.verifiedAt;
      var e := Confirmed(s.install.sequence, s.install.cached.candidate, v);
      assert Justified(cfg, s.journal, v);
      JustifiedExtends(cfg, s.journal, e, v);
      JustifiedStays(cfg, s.journal, e);
    }
  }

  lemma {:induction false} RunsKeepsInv(cfg: Config, s: State)
    requires Inv(cfg, s) && s.install.Active?
    ensures Inv(cfg, OnInstallRuns(s))
  {
    var from := CallbackFrom(s.install);
    if from.Some? && IsCurrent(s) {
      var e := QuitAndInstall(s.install.sequence, s.candidate, from.value);
      assert Justified(cfg, s.journal, from.value);
      JustifiedExtends(cfg, s.journal, e, from.value);
      JustifiedStays(cfg, s.journal, e);
    }
  }

  lemma {:induction false} InstallStepKeepsInv(cfg: Config, s: State, e: Event)
    requires Inv(cfg, s) && s.install.Active?
    ensures Inv(cfg, InstallStep(s, e))
  {
    match e {
      case InstallVerified(ok) => VerifiedKeepsInv(cfg, s, ok);
      case InstallAnswered(answer) => AnsweredKeepsInv(cfg, s, answer);
      case InstallRuns => RunsKeepsInv(cfg, s);
      case _ =>
    }
  }

  lemma {:induction false} CheckSettlesKeepsInv(cfg: Config, s: State, sequence: nat, failed: bool)
    requires Inv(cfg, s)
    ensures Inv(cfg, OnCheckSettles(s, sequence, failed))
  {
  }

  lemma {:induction false} DownloadSettlesKeepsInv(cfg: Config, s: State, sequence: nat)
    requires Inv(cfg, s)
    ensures Inv(cfg, OnDownloadSettles(s, sequence))
  {
  }

  lemma {:induction false} InstallSettlesKeepsInv(cfg: Config, s: State)
    requires Inv(cfg, s)
    ensures Inv(cfg, OnInstallSettles(s))
  {
  }

  lemma {:induction false} EngineEventKeepsInv(cfg: Config, s: State, e: Event)
    requires Inv(cfg, s) && (e.UpdateNotAvailable? || e.DownloadProgress? || e.EngineError?)
    ensures Inv(cfg, Step(cfg, s, e))
  {
  }

  lemma {:induction false} StepKeepsInv(cfg: Config, s: State, e: Event)
    requires Inv(cfg, s)
    ensures Inv(cfg, Step(cfg, s, e))
  {
    match e {
      case CheckStart => StartsKeepInv(cfg, s);
      case DownloadStart => StartsKeepInv(cfg, s);
      case InstallRequest(blocked) => InstallRequestKeepsInv(cfg, s, blocked);
      case UpdateAvailable(operation, found) => AvailableKeepsInv(cfg, s, operation, found);
      case UpdateDownloaded(operation, found) => DownloadedKeepsInv(cfg, s, operation, found);
      case CheckSettles(sequence, failed) => CheckSettlesKeepsInv(cfg, s, sequence, failed);
      case DownloadSettles(sequence) => DownloadSettlesKeepsInv(cfg, s, sequence);
      case InstallSettles => InstallSettlesKeepsInv(cfg, s);
      case UpdateNotAvailable(_) => EngineEventKeepsInv(cfg, s, e);
      case DownloadProgress(_) => EngineEventKeepsInv(cfg, s, e);
      case EngineError(_, _) => EngineEventKeepsInv(cfg, s, e);
      case _ => if s.install.Active? { InstallStepKeepsInv(cfg, s, e); }
    }
  }

  /** A step adds at most one entry to the journal. */
  lemma {:induction false} StepShape(cfg: Config, s: State, e: Event)
    ensures var j := Step(cfg, s, e).journal; |j| == |s.journal| || (|j| == |s.journal| + 1 && j[..|s.journal|] == s.journal)
  {
  }

  // ---------- What the status says ----------

  predicate Holds(s: State, c: Candidate) {
    s.candidate.Some? && s.candidate.value.candidate == c
  }

  /** A status names the candidate held, and says that there is none exactly if none is. */
  predicate StatusInv(s: State) {
    match s.status
    case NeverChecked => s.candidate.None?
    case Checking => s.active.Some? && s.active.value.kind == Check
    case UpToDate => s.candidate.None?
    case Available(c) => Holds(s, c) && s.downloaded.None?
    case Downloading(c) => Holds(s, c) && s.active.Some? && s.active.value.kind == Download
    case Downloaded(c) => Holds(s, c) && s.downloaded.Some?
    case Installing(c) => Holds(s, c) && s.downloaded.Some?
    case Error(_, retry) => retry.Some? ==> Holds(s, retry.value)
  }

  predicate Sound(cfg: Config, s: State) {
    Inv(cfg, s) && StatusInv(s)
  }

  lemma {:induction false} InstallStepKeepsStatus(cfg: Config, s: State, e: Event)
    requires Sound(cfg, s) && s.install.Active?
    ensures StatusInv(InstallStep(s, e))
  {
  }

  predicate FromEngine(e: Event) {
    e.UpdateAvailable? || e.UpdateNotAvailable? || e.DownloadProgress? || e.UpdateDownloaded? || e.EngineError?
  }

  predicate OfOperation(e: Event) {
    e.CheckStart? || e.DownloadStart? || e.InstallRequest? || e.CheckSettles? || e.DownloadSettles? || e.InstallSettles?
  }

  lemma {:induction false} EngineKeepsStatus(cfg: Config, s: State, e: Event)
    requires ActiveInv(s) && StatusInv(s) && FromEngine(e)
    ensures StatusInv(Step(cfg, s, e))
  {
  }

  lemma {:induction false} OperationKeepsStatus(cfg: Config, s: State, e: Event)
    requires ActiveInv(s) && StatusInv(s) && OfOperation(e)
    ensures StatusInv(Step(cfg, s, e))
  {
  }

  lemma {:induction false} StepKeepsStatus(cfg: Config, s: State, e: Event)
    requires Sound(cfg, s)
    ensures StatusInv(Step(cfg, s, e))
  {
    if FromEngine(e) {
      EngineKeepsStatus(cfg, s, e);
    } else if OfOperation(e) {
      OperationKeepsStatus(cfg, s, e);
    } else if s.install.Active? {
      InstallStepKeepsStatus(cfg, s, e);
    }
  }

  /** A step keeps both, and the entry it adds, if any, is justified. */
  lemma {:induction false} StepJustifies(cfg: Config, s: State, e: Event)
    requires Sound(cfg, s)
    ensures Sound(cfg, Step(cfg, s, e))
    ensures var j := Step(cfg, s, e).journal; |j| > |s.journal| ==> Justified(cfg, j, |s.journal|)
  {
    StepKeepsInv(cfg, s, e);
    StepKeepsStatus(cfg, s, e);
    StepShape(cfg, s, e);
  }

  /** An install may start exactly from a download or from an install that failed: what is held is then in order. */
  lemma {:induction false} InstallableIff(cfg: Config, s: State)
    requires Sound(cfg, s)
    ensures Installable(s) <==> s.status.Downloaded? || (s.status.Error? && s.status.operation == Install && s.status.retry.Some?)
  {
    if Offers(s) {
      HeldAgree(cfg, s);
    }
  }

  /** What is ready to be installed is what was announced. */
  lemma {:induction false} HeldAgree(cfg: Config, s: State)
    requires Inv(cfg, s) && Ready(s)
    ensures s.candidate.value.candidate.identity == s.downloaded.value.candidate.identity
  {
    assert Justified(cfg, s.journal, s.downloaded.value.at);
  }

  lemma {:induction false} RunKeepsSound(cfg: Config, s: State, es: seq<Event>)
    requires Sound(cfg, s)
    ensures Sound(cfg, Run(cfg, s, es))
    decreases |es|
  {
    if es != [] {
      StepJustifies(cfg, s, es[0]);
      RunKeepsSound(cfg, Step(cfg, s, es[0]), es[1..]);
    }
  }

  /** Which event may have brought a status, given the state it came in. */
  predicate Brings(cfg: Config, s: State, e: Event, status: Status) {
    match status
    case NeverChecked => false
    case Checking => e.CheckStart?
    case UpToDate =>
      && s.active.Some? && s.active.value.kind == Check
      && (e == UpdateNotAvailable(s.active.value.sequence) || e == CheckSettles(s.active.value.sequence, false))
    case Available(c) =>
      && s.active.Some? && s.active.value.kind == Check && e == UpdateAvailable(s.active.value.sequence, c)
      && c.identity.channel == cfg.selected && cfg.channelOf(c.identity.version) == Some(cfg.selected)
      && c.identity.tag == "v" + c.identity.version
    case Downloading(c) => Holds(s, c) && (e.DownloadStart? || e.DownloadProgress?)
    case Downloaded(c) =>
      && Holds(s, c)
      && ((s.active.Some? && s.active.value.kind == Download && e.UpdateDownloaded? && e.operation == s.active.value.sequence
           && e.found.identity == c.identity)
          || e == InstallAnswered(Some(false)))
    case Installing(c) => Holds(s, c) && e == InstallAnswered(Some(true))
    case Error(kind, retry) =>
      match kind
      case Check => e.EngineError? || (e.UpdateAvailable? && retry.None?) || (e.CheckSettles? && e.failed && retry.None?)
      case Download => retry.Some? && Holds(s, retry.value) && (e.EngineError? || e.DownloadSettles?)
      case Install => if e.InstallSettles? then retry.None? else
                      retry.Some? && Holds(s, retry.value) && (e.InstallVerified? || e.InstallAnswered? || e.InstallFails?)
  }

  /** The status changes only by a publication, and then for a reason that it names. */
  predicate Explained(cfg: Config, s: State, e: Event, t: State) {
    if t.published == s.published then t.status == s.status
    else t.published == s.published + 1 && Brings(cfg, s, e, t.status)
  }

  lemma {:induction false} EngineBrings(cfg: Config, s: State, e: Event)
    requires ActiveInv(s) && StatusInv(s) && FromEngine(e)
    ensures Explained(cfg, s, e, Step(cfg, s, e))
  {
  }

  lemma {:induction false} OperationBrings(cfg: Config, s: State, e: Event)
    requires ActiveInv(s) && StatusInv(s) && OfOperation(e)
    ensures Explained(cfg, s, e, Step(cfg, s, e))
  {
  }

  lemma {:induction false} InstallBrings(cfg: Config, s: State, e: Event)
    requires Sound(cfg, s) && s.install.Active? && !FromEngine(e) && !OfOperation(e)
    ensures Explained(cfg, s, e, Step(cfg, s, e))
  {
    HeldAgree(cfg, s);
  }

  lemma {:induction false} StepBrings(cfg: Config, s: State, e: Event)
    requires Sound(cfg, s)
    ensures Explained(cfg, s, e, Step(cfg, s, e))
  {
    if FromEngine(e) {
      EngineBrings(cfg, s, e);
    } else if OfOperation(e) {
      OperationBrings(cfg, s, e);
    } else if s.install.Active? {
      InstallBrings(cfg, s, e);
    }
  }

  /** In every run a status names exactly the candidate held, and every change of status has the cause it names. */
  lemma {:induction false} StatusLaw(cfg: Config, es: seq<Event>, e: Event)
    ensures var s := Run(cfg, Initial, es);
            var t := Run(cfg, Initial, es + [e]);
            StatusInv(s) && Explained(cfg, s, e, t)
  {
    RunKeepsSound(cfg, Initial, es);
    RunSnoc(cfg, Initial, es, e);
    StepBrings(cfg, Run(cfg, Initial, es), e);
  }

  lemma {:induction false} RunKeepsInv(cfg: Config, s: State, es: seq<Event>)
    requires Inv(cfg, s)
    ensures Inv(cfg, Run(cfg, s, es))
    decreases |es|
  {
    if es != [] {
      StepKeepsInv(cfg, s, es[0]);
      RunKeepsInv(cfg, Step(cfg, s, es[0]), es[1..]);
    }
  }

  // ---------- quitAndInstall ----------

  /**
   Whenever quitAndInstall ran, the candidate then held had been announced by the
   running check on the selected channel, downloaded with all six identity fields
   equal by a download started after that, and verified and confirmed in that very
   install, with no check and no other download starting since the download did.
   */
  lemma {:induction false} QuitIsJustified(cfg: Config, es: seq<Event>, k: nat)
    requires var j := Run(cfg, Initial, es).journal; k < |j| && j[k].QuitAndInstall?
    ensures QuitAt(cfg, Run(cfg, Initial, es).journal, k)
  {
    RunKeepsInv(cfg, Initial, es);
    assert Justified(cfg, Run(cfg, Initial, es).journal, k);
  }

  // ---------- An update can be installed ----------

  ghost predicate Reachable(cfg: Config, s: State) {
    exists es :: Run(cfg, Initial, es) == s
  }

  lemma {:induction false} RunSnoc(cfg: Config, s: State, es: seq<Event>, e: Event)
    ensures Run(cfg, s, es + [e]) == Step(cfg, Run(cfg, s, es), e)
    decreases |es|
  {
    if es == [] {
      assert [e][1..] == [];
      assert Run(cfg, Step(cfg, s, e), []) == Step(cfg, s, e);
      assert es + [e] == [e];
    } else {
      assert (es + [e])[1..] == es[1..] + [e];
      RunSnoc(cfg, Step(cfg, s, es[0]), es[1..], e);
    }
  }

  lemma {:induction false} ReachStep(cfg: Config, s: State, e: Event) returns (t: State)
    requires Reachable(cfg, s)
    ensures t == Step(cfg, s, e) && Reachable(cfg, t)
  {
    t := Step(cfg, s, e);
    var es :| Run(cfg, Initial, es) == s;
    RunSnoc(cfg, Initial, es, e);
  }

  lemma {:induction false} CheckCanHappen(cfg: Config, c: Candidate) returns (s: State)
    requires c.identity.channel == cfg.selected && TagFits(cfg, c)
    ensures Reachable(cfg, s) && s.install == NoInstall && s.checkPromise.None? && s.downloadPromise.None? && s.operations == 1
    ensures s.candidate.Some? && s.candidate.value.candidate == c
  {
    assert Run(cfg, Initial, []) == Initial;
    s := ReachStep(cfg, Initial, CheckStart);
    assert EventMatches(s, Check, 1);
    s := ReachStep(cfg, s, UpdateAvailable(1, c));
    assert s.active.None?;
    s := ReachStep(cfg, s, CheckSettles(1, false));
  }

  /** Check and download a fitting candidate. */
  lemma {:induction false} DownloadCanHappen(cfg: Config, c: Candidate) returns (s: State)
    requires c.identity.channel == cfg.selected && TagFits(cfg, c)
    ensures Reachable(cfg, s) && s.status == Downloaded(c) && s.install == NoInstall
    ensures s.candidate.Some? && s.candidate.value.candidate == c && s.downloaded.Some? && s.downloaded.value.candidate == c
  {
    s := CheckCanHappen(cfg, c);
    s := ReachStep(cfg, s, DownloadStart);
    assert EventMatches(s, Download, 2);
    s := ReachStep(cfg, s, UpdateDownloaded(2, c));
  }

  lemma {:induction false} InstallCanHappen(cfg: Config, c: Candidate) returns (s: State)
    requires c.identity.channel == cfg.selected && TagFits(cfg, c)
    ensures Reachable(cfg, s) && s.install.Active? && s.install.stage == Verifying && IsCurrent(s)
  {
    s := DownloadCanHappen(cfg, c);
    s := ReachStep(cfg, s, InstallRequest(false));
    assert s.install.Active? && IsCurrent(s) && s.install.stage == Beginning;
    s := ReachStep(cfg, s, InstallBegins);
  }

  /** An install whose candidate verifies comes to the confirmation. */
  lemma {:induction false} VerifyCanHappen(cfg: Config, c: Candidate) returns (s: State)
    requires c.identity.channel == cfg.selected && TagFits(cfg, c)
    ensures Reachable(cfg, s) && s.install.Active? && s.install.stage.Confirming? && IsCurrent(s)
  {
    s := InstallCanHappen(cfg, c);
    s := ReachStep(cfg, s, InstallVerified(true));
    assert IsCurrent(s) && s.install.stage.Counting?;
    s := ReachStep(cfg, s, SessionsCounted);
  }

  /** Verified and confirmed, a downloaded candidate is installed. */
  lemma {:induction false} QuitCanHappen(cfg: Config, c: Candidate)
    requires c.identity.channel == cfg.selected && TagFits(cfg, c)
    ensures exists s :: Reachable(cfg, s) && s.journal != [] && s.journal[|s.journal| - 1].QuitAndInstall?
  {
    var s := VerifyCanHappen(cfg, c);
    s := ReachStep(cfg, s, InstallAnswered(Some(true)));
    assert IsCurrent(s) && s.install.stage.Running?;
    s := ReachStep(cfg, s, InstallRuns);
  }
}
