/**
 The Peon selection transaction as a state machine: verification requests carry
 generations and may overlap, fail and be retried once; applies and saves run one
 at a time from a queue; every await is a scheduling point. A journal records what
 was sent and accepted. Each entry names the earlier entries it rests on, and the
 place of an entry also identifies the object created with it.
 */
module PeonSelection {
  import opened Wrappers

  // ---------- Data ----------

  const MAX_SAFE_INTEGER: nat := 0x1F_FFFF_FFFF_FFFF

  /** Two to the 53rd: adding one to this double gives it back. */
  const SATURATED: nat := MAX_SAFE_INTEGER + 1

  /** A URL as the source compares it: no such field, null, or a text; equal only if all three agree. */
  datatype Url = Missing | Null | Given(text: string)

  datatype Selection = Selection(provider: string, model: string, reasoningEffort: Option<string>, ollamaBaseUrl: Url)

  datatype AppliedState = AppliedState(
    provider: Option<string>,
    model: Option<string>,
    reasoningEffort: Option<string>,
    ollamaBaseUrl: Url)

  datatype Verified = Verified(generation: nat, provider: string, ollamaBaseUrl: Url, at: nat)

  datatype Applied = Applied(generation: nat, state: AppliedState, at: nat)

  datatype Entry =
    | VerifySent(generation: nat)
    | VerifyAccepted(generation: nat, provider: string, ollamaBaseUrl: Url)
    | ApplySent(generation: nat, selection: Selection, verifiedAt: nat)
    | ApplyAccepted(generation: nat, selection: Selection, state: AppliedState, sentAt: nat)
    | ReadSent(generation: nat, selection: Selection, appliedAt: nat)
    | Persisted(generation: nat, selection: Selection, current: AppliedState, verifiedAt: nat, appliedAt: nat, readAt: nat)

  /** A verification in flight. */
  datatype Check = Check(provider: string, ollamaBaseUrl: Url, generation: nat, retried: bool)

  /** The operation at the head of the mutation queue, after its first await. */
  datatype Mutation =
    | Idle
    | Applying(selection: Selection, candidate: Verified, sentAt: nat)
    | Saving(selection: Selection, localApplied: Applied, sentAt: nat)
    | Persisting

  datatype State = State(
    generation: nat,
    verified: Option<Verified>,
    applied: Option<Applied>,
    checks: map<nat, Check>,
    mutation: Mutation,
    journal: seq<Entry>)

  datatype Event =
    | VerifyStart(id: nat, provider: string, ollamaBaseUrl: Url)
    | VerifyReply(id: nat, provider: string, ollamaBaseUrl: Url, generation: nat)
    | VerifyError(id: nat, stale: bool, reported: int)
    | ApplyStart(selection: Selection)
    | ApplyReply(state: AppliedState)
    | SaveStart(selection: Selection)
    | SaveReply(state: AppliedState)
    | MutationError
    | PersistDone

  const Initial := State(0, None, None, map[], Idle, [])

  // ---------- Pure parts ----------

  /** The URL counts only for Ollama. */
  predicate MatchesVerified(s: Selection, v: Option<Verified>) {
    && v.Some? && v.value.provider == s.provider
    && (s.provider == "ollama" ==> s.ollamaBaseUrl == v.value.ollamaBaseUrl)
  }

  predicate MatchesApplied(s: Selection, a: AppliedState) {
    && a.provider == Some(s.provider)
    && s.model == (if a.model.Some? then a.model.value else "")
    && s.reasoningEffort == a.reasoningEffort
    && (if s.provider == "ollama" then s.ollamaBaseUrl == a.ollamaBaseUrl else a.ollamaBaseUrl == Null)
  }

  /** The remote generation of an error body, when it can be trusted. */
  function RemoteGeneration(stale: bool, reported: int): Option<nat> {
    if stale && 0 < reported <= MAX_SAFE_INTEGER then Some(reported) else None
  }

  /** Double addition of one, for the integers up to 2 to the 53rd. */
  function Increment(g: nat): nat {
    if g < SATURATED then g + 1 else g
  }

  // ---------- Steps ----------

  function Record(s: State, e: Entry): State {
    s.(journal := s.journal + [e])
  }

  /** Take a new generation, forget what was verified and applied, and send the request. */
  function Send(s: State, id: nat, provider: string, url: Url, retried: bool): State {
    var g := Increment(s.generation);
    Record(s.(generation := g, verified := None, applied := None,
              checks := s.checks[id := Check(provider, url, g, retried)]), VerifySent(g))
  }

  function OnVerifyReply(s: State, id: nat, provider: string, url: Url, generation: nat): State
    requires id in s.checks
  {
    var c := s.checks[id];
    var s1 := s.(checks := s.checks - {id});
    if c.generation != s.generation || generation != c.generation then s1
    else Record(s1.(verified := Some(Verified(generation, provider, url, |s.journal|))), VerifyAccepted(generation, provider, url))
  }

  function OnVerifyError(s: State, id: nat, stale: bool, reported: int): State
    requires id in s.checks
  {
    var c := s.checks[id];
    var remote := RemoteGeneration(stale, reported);
    if c.retried || c.generation != s.generation || remote.None? then s.(checks := s.checks - {id})
    else Send(s.(generation := if s.generation >= remote.value then s.generation else remote.value), id, c.provider, c.ollamaBaseUrl, true)
  }

  function OnApplyStart(s: State, selection: Selection): State {
    if !MatchesVerified(selection, s.verified) then s else
    var v := s.verified.value;
    Record(s.(mutation := Applying(selection, v, |s.journal|)), ApplySent(v.generation, selection, v.at))
  }

  function OnApplyReply(s: State, state: AppliedState): State
    requires s.mutation.Applying?
  {
    var Applying(selection, candidate, sentAt) := s.mutation;
    var s1 := s.(mutation := Idle);
    if !MatchesVerified(selection, s.verified) || !MatchesApplied(selection, state) then s1
    else Record(s1.(applied := Some(Applied(candidate.generation, state, |s.journal|))),
                ApplyAccepted(candidate.generation, selection, state, sentAt))
  }

  predicate Savable(s: State, selection: Selection, a: Option<Applied>) {
    && MatchesVerified(selection, s.verified) && a.Some?
    && a.value.generation == s.verified.value.generation && MatchesApplied(selection, a.value.state)
  }

  function OnSaveStart(s: State, selection: Selection): State {
    if !Savable(s, selection, s.applied) then s else
    var a := s.applied.value;
    Record(s.(mutation := Saving(selection, a, |s.journal|)), ReadSent(a.generation, selection, a.at))
  }

  function OnSaveReply(s: State, current: AppliedState): State
    requires s.mutation.Saving?
  {
    var Saving(selection, local, sentAt) := s.mutation;
    if s.applied != Some(local) || !Savable(s, selection, s.applied) || !MatchesApplied(selection, current) then s.(mutation := Idle)
    else Record(s.(mutation := Persisting), Persisted(local.generation, selection, current, s.verified.value.at, local.at, sentAt))
  }

  /** Applies and saves wait for their turn: a start has an effect only when the queue is idle. */
  function Step(s: State, e: Event): State {
    match e
    case VerifyStart(id, provider, url) => if id in s.checks then s else Send(s, id, provider, url, false)
    case VerifyReply(id, provider, url, g) => if id in s.checks then OnVerifyReply(s, id, provider, url, g) else s
    case VerifyError(id, stale, reported) => if id in s.checks then OnVerifyError(s, id, stale, reported) else s
    case ApplyStart(selection) => if s.mutation.Idle? then OnApplyStart(s, selection) else s
    case ApplyReply(state) => if s.mutation.Applying? then OnApplyReply(s, state) else s
    case SaveStart(selection) => if s.mutation.Idle? then OnSaveStart(s, selection) else s
    case SaveReply(state) => if s.mutation.Saving? then OnSaveReply(s, state) else s
    case MutationError => s.(mutation := Idle)
    case PersistDone => if s.mutation.Persisting? then s.(mutation := Idle) else s
  }

  function Run(s: State, es: seq<Event>): State
    decreases |es|
  {
    if es == [] then s else Run(Step(s, es[0]), es[1..])
  }

  // ---------- What every journal satisfies ----------

  /** No verification is requested strictly between two places. */
  predicate NoRequest(j: seq<Entry>, from: nat, to: nat)
    requires to <= |j|
  {
    forall m :: from < m < to ==> !j[m].VerifySent?
  }

  /** No earlier request carries a higher generation. */
  predicate Newest(j: seq<Entry>, g: nat, to: nat)
    requires to <= |j|
  {
    forall m :: 0 <= m < to && j[m].VerifySent? ==> j[m].generation <= g
  }

  /** What the sidecar reports is the selection, field by field: an absent model is the empty one, and only Ollama has a URL. */
  predicate Reports(a: AppliedState, selection: Selection) {
    && a.provider == Some(selection.provider)
    && (a.model == Some(selection.model) || (a.model == None && selection.model == ""))
    && a.reasoningEffort == selection.reasoningEffort
    && (selection.provider == "ollama" ==> a.ollamaBaseUrl == selection.ollamaBaseUrl)
    && (selection.provider != "ollama" ==> a.ollamaBaseUrl == Null)
  }

  /** What was verified is the selection's provider and, for Ollama, its URL. */
  predicate Covers(provider: string, url: Url, selection: Selection) {
    provider == selection.provider && (provider == "ollama" ==> url == selection.ollamaBaseUrl)
  }

  /** The tests that the code makes are exactly these. */
  lemma {:induction false} TestsAreExact(selection: Selection, v: Option<Verified>, a: AppliedState)
    ensures MatchesApplied(selection, a) <==> Reports(a, selection)
    ensures MatchesVerified(selection, v) <==> v.Some? && Covers(v.value.provider, v.value.ollamaBaseUrl, selection)
  {
  }

  predicate AcceptedAt(j: seq<Entry>, g: nat, selection: Selection, at: nat)
    requires at < |j|
  {
    j[at].VerifyAccepted? && j[at].generation == g && Covers(j[at].provider, j[at].ollamaBaseUrl, selection)
  }

  /** An accepted apply, back to the verification it was sent under. */
  predicate AppliedAt(j: seq<Entry>, g: nat, selection: Selection, at: nat)
    requires at < |j|
  {
    && j[at].ApplyAccepted? && j[at].generation == g && Reports(j[at].state, selection)
    && j[at].sentAt < at && j[j[at].sentAt].ApplySent?
    && j[j[at].sentAt].verifiedAt < j[at].sentAt
    && AcceptedAt(j, g, j[at].selection, j[j[at].sentAt].verifiedAt)
    && Reports(j[at].state, j[at].selection)
  }

  /**
   One generation, still the newest requested, was verified for the selection's provider and URL, applied with a
   matching result and only then read again as matching, with no verification requested since either acceptance.
   */
  predicate PersistedRightly(j: seq<Entry>, k: nat)
    requires k < |j| && j[k].Persisted?
  {
    var Persisted(g, selection, current, v, a, r) := j[k];
    && v < k && a < r < k
    && AcceptedAt(j, g, selection, v) && AppliedAt(j, g, selection, a)
    && j[r] == ReadSent(g, selection, a) && Reports(current, selection)
    && NoRequest(j, v, k) && NoRequest(j, a, k) && Newest(j, g, k)
  }

  /** What the entry at place k rests on. */
  predicate Justified(j: seq<Entry>, k: nat)
    requires k < |j|
  {
    match j[k]
    case VerifySent(g) => Newest(j, g, k)
    case VerifyAccepted(g, _, _) => Newest(j, g, k)
    case ApplySent(g, selection, v) => v < k && AcceptedAt(j, g, selection, v)
    case ApplyAccepted(g, selection, _, _) => AppliedAt(j, g, selection, k)
    case ReadSent(g, selection, a) => a < k && AppliedAt(j, g, selection, a)
    case Persisted(_, _, _, _, _, _) => PersistedRightly(j, k)
  }

  predicate AllJustified(j: seq<Entry>) {
    forall k :: 0 <= k < |j| ==> Justified(j, k)
  }

  // ---------- Invariant ----------

  predicate VerifiedInv(s: State) {
    s.verified.Some? ==>
      var v := s.verified.value;
      && v.generation == s.generation && v.at < |s.journal|
      && s.journal[v.at] == VerifyAccepted(v.generation, v.provider, v.ollamaBaseUrl)
      && NoRequest(s.journal, v.at, |s.journal|)
  }

  predicate AppliedInv(s: State) {
    s.applied.Some? ==>
      var a := s.applied.value;
      && a.at < |s.journal| && s.journal[a.at].ApplyAccepted?
      && s.journal[a.at].generation == a.generation && s.journal[a.at].state == a.state
      && NoRequest(s.journal, a.at, |s.journal|)
  }

  predicate MutationInv(s: State) {
    match s.mutation
    case Applying(selection, c, sentAt) => sentAt < |s.journal| && s.journal[sentAt] == ApplySent(c.generation, selection, c.at)
    case Saving(selection, a, sentAt) => sentAt < |s.journal| && s.journal[sentAt] == ReadSent(a.generation, selection, a.at)
    case _ => true
  }

  predicate Inv(s: State) {
    && AllJustified(s.journal)
    && s.generation <= SATURATED && Newest(s.journal, s.generation, |s.journal|)
    && VerifiedInv(s) && AppliedInv(s) && MutationInv(s)
  }

  lemma {:induction false} JustifiedStays(j: seq<Entry>, e: Entry)
    requires AllJustified(j) && Justified(j + [e], |j|)
    ensures AllJustified(j + [e])
  {
    var j' := j + [e];
    forall k | 0 <= k < |j'|
      ensures Justified(j', k)
    {
      if k < |j| {
        assert Justified(j, k);
        assert forall m :: 0 <= m < |j| ==> j'[m] == j[m];
      }
    }
  }

  lemma {:induction false} SendKeepsInv(s: State, id: nat, provider: string, url: Url, retried: bool)
    requires Inv(s)
    ensures Inv(Send(s, id, provider, url, retried))
  {
    var t := Send(s, id, provider, url, retried);
    JustifiedStays(s.journal, VerifySent(t.generation));
  }

  lemma {:induction false} VerifyReplyKeepsInv(s: State, id: nat, provider: string, url: Url, generation: nat)
    requires Inv(s) && id in s.checks
    ensures Inv(OnVerifyReply(s, id, provider, url, generation))
  {
    JustifiedStays(s.journal, VerifyAccepted(s.generation, provider, url));
  }

  lemma {:induction false} ApplyStartKeepsInv(s: State, selection: Selection)
    requires Inv(s)
    ensures Inv(OnApplyStart(s, selection))
  {
    if MatchesVerified(selection, s.verified) {
      var v := s.verified.value;
      JustifiedStays(s.journal, ApplySent(v.generation, selection, v.at));
    }
  }

  lemma {:induction false} ApplyReplyKeepsInv(s: State, state: AppliedState)
    requires Inv(s) && s.mutation.Applying?
    ensures Inv(OnApplyReply(s, state))
  {
    var Applying(selection, c, sentAt) := s.mutation;
    if MatchesVerified(selection, s.verified) && MatchesApplied(selection, state) {
      assert Justified(s.journal, sentAt);
      JustifiedStays(s.journal, ApplyAccepted(c.generation, selection, state, sentAt));
    }
  }

  lemma {:induction false} SaveStartKeepsInv(s: State, selection: Selection)
    requires Inv(s)
    ensures Inv(OnSaveStart(s, selection))
  {
    if Savable(s, selection, s.applied) {
      var a := s.applied.value;
      assert Justified(s.journal, a.at);
      JustifiedStays(s.journal, ReadSent(a.generation, selection, a.at));
    }
  }

  lemma {:induction false} SaveReplyKeepsInv(s: State, current: AppliedState)
    requires Inv(s) && s.mutation.Saving?
    ensures Inv(OnSaveReply(s, current))
  {
    var Saving(selection, local, sentAt) := s.mutation;
    var t := OnSaveReply(s, current);
    if t.mutation.Persisting? {
      assert Justified(s.journal, sentAt);
      JustifiedStays(s.journal, Persisted(local.generation, selection, current, s.verified.value.at, local.at, sentAt));
    }
  }

  lemma {:induction false} StepKeepsInv(s: State, e: Event)
    requires Inv(s)
    ensures Inv(Step(s, e))
  {
    match e {
      case VerifyStart(id, provider, url) => SendKeepsInv(s, id, provider, url, false);
      case VerifyReply(id, provider, url, g) => if id in s.checks { VerifyReplyKeepsInv(s, id, provider, url, g); }
      case VerifyError(id, stale, reported) =>
        if id in s.checks {
          var c := s.checks[id];
          var remote := RemoteGeneration(stale, reported);
          if !c.retried && c.generation == s.generation && remote.Some? {
            RetryKeepsInv(s, id, c, remote.value);
          }
        }
      case ApplyStart(selection) => ApplyStartKeepsInv(s, selection);
      case ApplyReply(state) => if s.mutation.Applying? { ApplyReplyKeepsInv(s, state); }
      case SaveStart(selection) => SaveStartKeepsInv(s, selection);
      case SaveReply(state) => if s.mutation.Saving? { SaveReplyKeepsInv(s, state); }
      case _ =>
    }
  }

  lemma {:induction false} RetryKeepsInv(s: State, id: nat, c: Check, remote: nat)
    requires Inv(s) && remote <= MAX_SAFE_INTEGER
    ensures Inv(Send(s.(generation := if s.generation >= remote then s.generation else remote), id, c.provider, c.ollamaBaseUrl, true))
  {
    // The verified selection is dropped by the send, so it may be dropped before it.
    var g := if s.generation >= remote then s.generation else remote;
    SendKeepsInv(s.(generation := g, verified := None), id, c.provider, c.ollamaBaseUrl, true);
  }

  lemma {:induction false} RunKeepsInv(s: State, es: seq<Event>)
    requires Inv(s)
    ensures Inv(Run(s, es))
    decreases |es|
  {
    if es != [] {
      StepKeepsInv(s, es[0]);
      RunKeepsInv(Step(s, es[0]), es[1..]);
    }
  }

  // ---------- Persist ----------

  /** Every selection persisted in any run was persisted rightly. */
  lemma {:induction false} PersistIsJustified(es: seq<Event>, k: nat)
    requires var j := Run(Initial, es).journal; k < |j| && j[k].Persisted?
    ensures PersistedRightly(Run(Initial, es).journal, k)
  {
    RunKeepsInv(Initial, es);
    assert Justified(Run(Initial, es).journal, k);
  }

  // ---------- Generations ----------

  predicate RequestsDistinct(j: seq<Entry>) {
    forall m, n :: 0 <= m < n < |j| && j[m].VerifySent? && j[n].VerifySent? ==>
      j[m].generation < j[n].generation || j[m].generation == SATURATED
  }

  predicate AcceptancesDistinct(j: seq<Entry>) {
    forall m, n :: 0 <= m < n < |j| && j[m].VerifyAccepted? && j[n].VerifyAccepted? && j[m].generation == j[n].generation ==>
      j[m].generation == SATURATED
  }

  /** Each generation below saturation belongs to one verification call, which is accepted at most once. */
  predicate ChecksDistinct(checks: map<nat, Check>, j: seq<Entry>) {
    && (forall a, b :: a in checks && b in checks && a != b && checks[a].generation == checks[b].generation ==>
          checks[a].generation == SATURATED)
    && (forall a, m :: a in checks && 0 <= m < |j| && j[m].VerifyAccepted? && j[m].generation == checks[a].generation ==>
          checks[a].generation == SATURATED)
  }

  predicate Bounded(s: State) {
    && (forall a :: a in s.checks ==> s.checks[a].generation <= s.generation)
    && (forall m :: 0 <= m < |s.journal| && s.journal[m].VerifyAccepted? ==> s.journal[m].generation <= s.generation)
    && Newest(s.journal, s.generation, |s.journal|) && s.generation <= SATURATED
  }

  predicate GenerationInv(s: State) {
    RequestsDistinct(s.journal) && AcceptancesDistinct(s.journal) && ChecksDistinct(s.checks, s.journal) && Bounded(s)
  }

  /** A request with a generation above all others, unless it is saturated. */
  lemma {:induction false} SentKeepsDistinct(j: seq<Entry>, e: Entry)
    requires RequestsDistinct(j) && AcceptancesDistinct(j) && e.VerifySent?
    requires forall m :: 0 <= m < |j| && j[m].VerifySent? ==> j[m].generation < e.generation || j[m].generation == SATURATED
    ensures RequestsDistinct(j + [e]) && AcceptancesDistinct(j + [e])
  {
    assert forall m :: 0 <= m < |j| ==> (j + [e])[m] == j[m];
  }

  /** And the call that waits for its answer. */
  lemma {:induction false} SentKeepsChecks(checks: map<nat, Check>, j: seq<Entry>, e: Entry, id: nat, c: Check)
    requires ChecksDistinct(checks, j) && e.VerifySent?
    requires forall a :: a in checks ==> checks[a].generation < c.generation || c.generation == SATURATED
    requires forall m :: 0 <= m < |j| && j[m].VerifyAccepted? ==> j[m].generation < c.generation || c.generation == SATURATED
    ensures ChecksDistinct(checks[id := c], j + [e])
  {
    assert forall m :: 0 <= m < |j| ==> (j + [e])[m] == j[m];
  }

  lemma {:induction false} SendKeepsGenerations(s: State, id: nat, provider: string, url: Url, retried: bool)
    requires GenerationInv(s)
    ensures GenerationInv(Send(s, id, provider, url, retried))
  {
    var t := Send(s, id, provider, url, retried);
    assert t.journal == s.journal + [VerifySent(t.generation)];
    SentKeepsDistinct(s.journal, VerifySent(t.generation));
    SentKeepsChecks(s.checks, s.journal, VerifySent(t.generation), id, t.checks[id]);
  }

  /** Recording the acceptance of a generation that no call in flight and no earlier acceptance has. */
  lemma {:induction false} AcceptKeepsDistinct(checks: map<nat, Check>, j: seq<Entry>, e: Entry)
    requires RequestsDistinct(j) && AcceptancesDistinct(j) && ChecksDistinct(checks, j) && e.VerifyAccepted?
    requires e.generation != SATURATED ==> forall a :: a in checks ==> checks[a].generation != e.generation
    requires e.generation != SATURATED ==> forall m :: 0 <= m < |j| && j[m].VerifyAccepted? ==> j[m].generation != e.generation
    ensures RequestsDistinct(j + [e]) && AcceptancesDistinct(j + [e]) && ChecksDistinct(checks, j + [e])
  {
    assert forall m :: 0 <= m < |j| ==> (j + [e])[m] == j[m];
  }

  lemma {:induction false} ReplyKeepsGenerations(s: State, id: nat, provider: string, url: Url, generation: nat)
    requires GenerationInv(s) && id in s.checks
    ensures GenerationInv(OnVerifyReply(s, id, provider, url, generation))
  {
    var s1 := s.(checks := s.checks - {id});
    OthersKeepGenerations(s, s1);
    if s.checks[id].generation == s.generation == generation {
      AcceptKeepsDistinct(s1.checks, s1.journal, VerifyAccepted(generation, provider, url));
    }
  }

  /** The queued operations record neither requests nor acceptances of verifications. */
  lemma {:induction false} OthersKeepGenerations(s: State, t: State)
    requires GenerationInv(s) && t.generation == s.generation && (forall a :: a in t.checks ==> a in s.checks && t.checks[a] == s.checks[a])
    requires |s.journal| <= |t.journal| <= |s.journal| + 1 && t.journal[..|s.journal|] == s.journal
    requires |t.journal| > |s.journal| ==> !t.journal[|s.journal|].VerifySent? && !t.journal[|s.journal|].VerifyAccepted?
    ensures GenerationInv(t)
  {
    assert forall m :: 0 <= m < |s.journal| ==> t.journal[m] == t.journal[..|s.journal|][m];
  }

  lemma {:induction false} ResyncKeepsGenerations(s: State, remote: nat)
    requires GenerationInv(s) && remote <= SATURATED
    ensures GenerationInv(s.(generation := if s.generation >= remote then s.generation else remote))
  {
  }

  lemma {:induction false} ErrorKeepsGenerations(s: State, id: nat, stale: bool, reported: int)
    requires GenerationInv(s) && id in s.checks
    ensures GenerationInv(OnVerifyError(s, id, stale, reported))
  {
    var c := s.checks[id];
    var remote := RemoteGeneration(stale, reported);
    if c.retried || c.generation != s.generation || remote.None? {
      OthersKeepGenerations(s, OnVerifyError(s, id, stale, reported));
    } else {
      ResyncKeepsGenerations(s, remote.value);
      var g := if s.generation >= remote.value then s.generation else remote.value;
      SendKeepsGenerations(s.(generation := g), id, c.provider, c.ollamaBaseUrl, true);
    }
  }

  lemma {:induction false} StepKeepsGenerations(s: State, e: Event)
    requires GenerationInv(s)
    ensures GenerationInv(Step(s, e))
  {
    match e {
      case VerifyStart(id, provider, url) => SendKeepsGenerations(s, id, provider, url, false);
      case VerifyReply(id, provider, url, g) => if id in s.checks { ReplyKeepsGenerations(s, id, provider, url, g); }
      case VerifyError(id, stale, reported) => if id in s.checks { ErrorKeepsGenerations(s, id, stale, reported); }
      case _ =>
        QueueStepShape(s, e);
        OthersKeepGenerations(s, Step(s, e));
    }
  }

  /** A step of the mutation queue, which leaves the verifications alone. */
  lemma {:induction false} QueueStepShape(s: State, e: Event)
    requires !e.VerifyStart? && !e.VerifyReply? && !e.VerifyError?
    ensures var t := Step(s, e);
            && t.generation == s.generation && t.checks == s.checks
            && |s.journal| <= |t.journal| <= |s.journal| + 1 && t.journal[..|s.journal|] == s.journal
            && (|t.journal| > |s.journal| ==> !t.journal[|s.journal|].VerifySent? && !t.journal[|s.journal|].VerifyAccepted?)
  {
  }

  lemma {:induction false} RunKeepsGenerations(s: State, es: seq<Event>)
    requires GenerationInv(s)
    ensures GenerationInv(Run(s, es))
    decreases |es|
  {
    if es != [] {
      StepKeepsGenerations(s, es[0]);
      RunKeepsGenerations(Step(s, es[0]), es[1..]);
    }
  }

  /** Both invariants together. */
  predicate Sound(s: State) {
    Inv(s) && GenerationInv(s)
  }

  lemma {:induction false} StepKeepsSound(s: State, e: Event)
    requires Sound(s)
    ensures Sound(Step(s, e))
  {
    StepKeepsInv(s, e);
    StepKeepsGenerations(s, e);
  }

  lemma {:induction false} SaveReplyPersistsRightly(s: State, current: AppliedState)
    requires Sound(s) && s.mutation.Saving?
    ensures var t := Step(s, SaveReply(current));
            && Sound(t)
            && (t.mutation.Persisting? ==> |t.journal| == |s.journal| + 1 && t.journal[|s.journal|].Persisted? && PersistedRightly(t.journal, |s.journal|))
  {
    StepKeepsSound(s, SaveReply(current));
    var t := Step(s, SaveReply(current));
    if t.mutation.Persisting? {
      assert Justified(t.journal, |s.journal|);
    }
  }

  /** A later request has a higher generation exactly when the earlier one was below 2 to the 53rd. */
  lemma {:induction false} RequestsIncreaseIff(es: seq<Event>, m: nat, n: nat)
    requires var j := Run(Initial, es).journal; m < n < |j| && j[m].VerifySent? && j[n].VerifySent?
    ensures var j := Run(Initial, es).journal; j[m].generation < j[n].generation <==> j[m].generation < SATURATED
  {
    RunKeepsGenerations(Initial, es);
  }

  /** A remote generation of 2 to the 53rd minus one makes two later requests share their generation. */
  lemma {:induction false} RequestsCanCollide(provider: string)
    ensures exists es, m, n :: 0 <= m < n < |Run(Initial, es).journal|
                               && Run(Initial, es).journal[m] == VerifySent(SATURATED) == Run(Initial, es).journal[n]
  {
    var e0 := VerifyStart(0, provider, Missing);
    var e1 := VerifyError(0, true, MAX_SAFE_INTEGER);
    var e2 := VerifyStart(1, provider, Missing);
    var es := [e0, e1, e2];
    var s1 := Step(Initial, e0);
    var s2 := Step(s1, e1);
    var s3 := Step(s2, e2);
    assert s2.journal == [VerifySent(1), VerifySent(SATURATED)];
    assert s3.journal == s2.journal + [VerifySent(SATURATED)];
    assert es[1..] == [e1, e2] && es[1..][1..] == [e2] && es[1..][1..][1..] == [];
    assert Run(s3, []) == s3;
    assert Run(s2, [e2]) == s3;
    assert Run(s1, [e1, e2]) == s3;
    assert Run(Initial, es) == s3;
    assert Run(Initial, es).journal[1] == VerifySent(SATURATED) == Run(Initial, es).journal[2];
  }

  /** The retry is single, supersedes nothing newer and exceeds the generation the remote reported. */
  lemma {:induction false} RetryExceedsRemote(s: State, id: nat, stale: bool, reported: int)
    requires id in s.checks
    ensures var t := OnVerifyError(s, id, stale, reported);
            if !s.checks[id].retried && s.checks[id].generation == s.generation && stale && 0 < reported <= MAX_SAFE_INTEGER
            then t.generation > reported && t.journal == s.journal + [VerifySent(t.generation)] && t.checks[id].retried
            else t.journal == s.journal && id !in t.checks && t.generation == s.generation
  {
  }

  /** Verified, then sent, then accepted, then read again, then persisted: all under one verification. */
  predicate PersistedInOrder(j: seq<Entry>, k: nat)
    requires k < |j| && j[k].Persisted?
  {
    var applied := j[k].appliedAt;
    && applied < j[k].readAt < k && j[applied].ApplyAccepted? && j[applied].sentAt < applied && j[j[applied].sentAt].ApplySent?
    && j[j[applied].sentAt].verifiedAt == j[k].verifiedAt < j[applied].sentAt
  }

  lemma {:induction false} RightlyInOrder(j: seq<Entry>, k: nat)
    requires k < |j| && j[k].Persisted? && j[k].generation < SATURATED && PersistedRightly(j, k) && AcceptancesDistinct(j)
    ensures PersistedInOrder(j, k)
  {
    var v, w := j[k].verifiedAt, j[j[j[k].appliedAt].sentAt].verifiedAt;
    assert j[v].VerifyAccepted? && j[w].VerifyAccepted? && j[v].generation == j[w].generation < SATURATED;
    assert v == w;
  }

  /** Below saturation the verification an apply was sent under is the very one the save relies on. */
  lemma {:induction false} PersistInOrder(es: seq<Event>, k: nat)
    requires var j := Run(Initial, es).journal; k < |j| && j[k].Persisted? && j[k].generation < SATURATED
    ensures PersistedInOrder(Run(Initial, es).journal, k)
  {
    PersistIsJustified(es, k);
    RunKeepsGenerations(Initial, es);
    RightlyInOrder(Run(Initial, es).journal, k);
  }

  // ---------- A selection can be persisted ----------

  ghost predicate Reachable(s: State) {
    exists es :: Run(Initial, es) == s
  }

  lemma {:induction false} RunSnoc(s: State, es: seq<Event>, e: Event)
    ensures Run(s, es + [e]) == Step(Run(s, es), e)
    decreases |es|
  {
    if es == [] {
      assert [e][1..] == [];
      assert Run(Step(s, e), []) == Step(s, e);
      assert es + [e] == [e];
    } else {
      assert (es + [e])[1..] == es[1..] + [e];
      RunSnoc(Step(s, es[0]), es[1..], e);
    }
  }

  lemma {:induction false} ReachStep(s: State, e: Event)
    requires Reachable(s)
    ensures Reachable(Step(s, e))
  {
    var es :| Run(Initial, es) == s;
    RunSnoc(Initial, es, e);
  }

  /** A verification answered under its own generation is accepted. */
  lemma {:induction false} VerifyCanHappen(selection: Selection) returns (s: State)
    ensures Reachable(s) && s.mutation == Idle && |s.journal| == 2 && s.applied == None
    ensures s.verified == Some(Verified(1, selection.provider, selection.ollamaBaseUrl, 1))
  {
    assert Run(Initial, []) == Initial;
    var e1 := VerifyStart(0, selection.provider, selection.ollamaBaseUrl);
    s := Step(Initial, e1);
    ReachStep(Initial, e1);
    assert s.checks[0].generation == 1 == s.generation && |s.journal| == 1;
    var e2 := VerifyReply(0, selection.provider, selection.ollamaBaseUrl, 1);
    ReachStep(s, e2);
    s := Step(s, e2);
  }

  lemma {:induction false} ApplyCanHappen(selection: Selection, state: AppliedState) returns (s: State)
    requires Reports(state, selection)
    ensures Reachable(s) && s.mutation == Idle && |s.journal| == 4 && s.applied == Some(Applied(1, state, 3))
    ensures s.verified == Some(Verified(1, selection.provider, selection.ollamaBaseUrl, 1))
  {
    s := VerifyCanHappen(selection);
    ReachStep(s, ApplyStart(selection));
    s := Step(s, ApplyStart(selection));
    assert s.mutation == Applying(selection, s.verified.value, 2);
    ReachStep(s, ApplyReply(state));
    s := Step(s, ApplyReply(state));
  }

  /** Verify, apply and save in turn, with matching answers, end in persisting the selection. */
  lemma {:induction false} PersistCanHappen(selection: Selection, state: AppliedState)
    requires Reports(state, selection)
    ensures exists s :: Reachable(s) && |s.journal| == 6 && s.journal[5] == Persisted(1, selection, state, 1, 3, 4)
  {
    var s := ApplyCanHappen(selection, state);
    ReachStep(s, SaveStart(selection));
    s := Step(s, SaveStart(selection));
    assert s.mutation == Saving(selection, s.applied.value, 4);
    ReachStep(s, SaveReply(state));
    s := Step(s, SaveReply(state));
    assert s.journal[5] == Persisted(1, selection, state, 1, 3, 4);
  }
}
