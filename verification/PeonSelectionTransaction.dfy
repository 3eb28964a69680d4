/**
 The transaction object: its closure variables as fields and each stretch of code
 between two awaits as a method. Every method keeps the invariants of the journal,
 so whatever events an object has handled, all it persisted was persisted rightly.
 */
module PeonSelectionTransaction {
  import opened Wrappers
  import P = PeonSelection

  class Transaction {
    var generation: nat
    var verified: Option<P.Verified>
    var applied: Option<P.Applied>
    /** Local variables of the verifications that are awaiting a reply. */
    var checks: map<nat, P.Check>
    /** Local variables of the queued operation that is awaiting a reply. */
    var mutation: P.Mutation
    var journal: seq<P.Entry>

    ghost function Model(): P.State
      reads this
    {
      P.State(generation, verified, applied, checks, mutation, journal)
    }

    ghost predicate Valid()
      reads this
    {
      P.Sound(Model())
    }

    constructor ()
      ensures Valid() && Model() == P.Initial
    {
      generation, verified, applied, checks, mutation, journal := 0, None, None, map[], P.Idle, [];
    }

    method Record(e: P.Entry)
      modifies this`journal
      ensures journal == old(journal) + [e]
    {
      journal := journal + [e];
    }

    method NextGeneration() returns (g: nat)
      modifies this`generation, this`verified, this`applied
      ensures g == generation == P.Increment(old(generation)) && verified == None && applied == None
    {
      generation := P.Increment(generation);
      verified := None;
      applied := None;
      g := generation;
    }

    method ResyncToRemoteGeneration(stale: bool, reported: int) returns (ok: bool)
      modifies this`generation
      ensures ok == P.RemoteGeneration(stale, reported).Some?
      ensures ok ==> generation == if old(generation) >= reported then old(generation) else reported
      ensures !ok ==> generation == old(generation)
    {
      var current := P.RemoteGeneration(stale, reported);
      ok := current.Some?;
      if ok && generation < current.value {
        generation := current.value;
      }
    }

    method Verify(id: nat, provider: string, url: P.Url)
      requires Valid() && id !in checks
      modifies this
      ensures Valid() && Model() == P.Step(old(Model()), P.VerifyStart(id, provider, url))
      ensures journal == old(journal) + [P.VerifySent(generation)] && verified == None && applied == None
      ensures generation == if old(generation) < P.SATURATED then old(generation) + 1 else old(generation)
      ensures checks == old(checks)[id := P.Check(provider, url, generation, false)] && mutation == old(mutation)
      ensures forall k :: 0 <= k < |old(journal)| && old(journal)[k].VerifySent? && old(journal)[k].generation < P.SATURATED ==>
                old(journal)[k].generation < generation
    {
      P.StepKeepsSound(Model(), P.VerifyStart(id, provider, url));
      var requestGeneration := NextGeneration();
      Record(P.VerifySent(requestGeneration));
      checks := checks[id := P.Check(provider, url, requestGeneration, false)];
    }

    /** Accepted only if nothing was requested since and the reply carries the generation that was requested. */
    method VerifyReply(id: nat, provider: string, url: P.Url, resultGeneration: nat) returns (ok: bool)
      requires Valid() && id in checks
      modifies this
      ensures Valid() && Model() == P.Step(old(Model()), P.VerifyReply(id, provider, url, resultGeneration))
      ensures ok <==> old(checks)[id].generation == old(generation) == resultGeneration
      ensures ok ==> verified == Some(P.Verified(generation, provider, url, |old(journal)|))
      ensures !ok ==> verified == old(verified) && journal == old(journal)
    {
      P.StepKeepsSound(Model(), P.VerifyReply(id, provider, url, resultGeneration));
      var requestGeneration := checks[id].generation;
      checks := checks - {id};
      ok := requestGeneration == generation && resultGeneration == requestGeneration;
      if ok {
        verified := Some(P.Verified(requestGeneration, provider, url, |journal|));
        Record(P.VerifyAccepted(requestGeneration, provider, url));
      }
    }

    /** A superseded call or a retry ends without a trace; any other is retried above the generation reported. */
    method VerifyError(id: nat, stale: bool, reported: int) returns (retries: bool)
      requires Valid() && id in checks
      modifies this
      ensures Valid() && Model() == P.Step(old(Model()), P.VerifyError(id, stale, reported))
      ensures retries <==> !old(checks)[id].retried && old(checks)[id].generation == old(generation)
                           && stale && 0 < reported <= P.MAX_SAFE_INTEGER
      ensures retries ==> generation > reported && journal == old(journal) + [P.VerifySent(generation)] && verified == None && applied == None
      ensures retries ==> checks == old(checks)[id := P.Check(old(checks)[id].provider, old(checks)[id].ollamaBaseUrl, generation, true)]
      ensures !retries ==> generation == old(generation) && verified == old(verified) && applied == old(applied)
                           && journal == old(journal) && checks == old(checks) - {id}
    {
      P.StepKeepsSound(Model(), P.VerifyError(id, stale, reported));
      var c := checks[id];
      retries := false;
      if !c.retried && c.generation == generation {
        retries := ResyncToRemoteGeneration(stale, reported);
      }
      if !retries {
        checks := checks - {id};
        return;
      }
      var requestGeneration := NextGeneration();
      Record(P.VerifySent(requestGeneration));
      checks := checks[id := P.Check(c.provider, c.ollamaBaseUrl, requestGeneration, true)];
    }

    method Apply(selection: P.Selection) returns (sent: bool)
      requires Valid() && mutation == P.Idle
      modifies this
      ensures Valid() && Model() == P.Step(old(Model()), P.ApplyStart(selection))
      ensures sent <==> verified.Some? && P.Covers(verified.value.provider, verified.value.ollamaBaseUrl, selection)
      ensures sent ==> mutation.Applying? && journal == old(journal) + [P.ApplySent(generation, selection, verified.value.at)]
      ensures !sent ==> Model() == old(Model())
    {
      P.StepKeepsSound(Model(), P.ApplyStart(selection));
      sent := P.MatchesVerified(selection, verified);
      if sent {
        var candidate := verified.value;
        mutation := P.Applying(selection, candidate, |journal|);
        Record(P.ApplySent(candidate.generation, selection, candidate.at));
      }
    }

    /** The applied state is recorded under the generation the apply was sent with, not the current one. */
    method ApplyReply(result: P.AppliedState) returns (ok: bool)
      requires Valid() && mutation.Applying?
      modifies this
      ensures Valid() && Model() == P.Step(old(Model()), P.ApplyReply(result))
      ensures ok <==> old(verified).Some? && P.Covers(old(verified).value.provider, old(verified).value.ollamaBaseUrl, old(mutation).selection)
                      && P.Reports(result, old(mutation).selection)
      ensures ok ==> applied == Some(P.Applied(old(mutation).candidate.generation, result, |old(journal)|))
      ensures !ok ==> applied == old(applied) && journal == old(journal)
    {
      P.StepKeepsSound(Model(), P.ApplyReply(result));
      var selection, candidate, sentAt := mutation.selection, mutation.candidate, mutation.sentAt;
      mutation := P.Idle;
      ok := P.MatchesVerified(selection, verified) && P.MatchesApplied(selection, result);
      if ok {
        applied := Some(P.Applied(candidate.generation, result, |journal|));
        Record(P.ApplyAccepted(candidate.generation, selection, result, sentAt));
      }
    }

    method Save(selection: P.Selection) returns (ok: bool)
      requires Valid() && mutation == P.Idle
      modifies this
      ensures Valid() && Model() == P.Step(old(Model()), P.SaveStart(selection))
      ensures ok <==> verified.Some? && P.Covers(verified.value.provider, verified.value.ollamaBaseUrl, selection)
                      && applied.Some? && applied.value.generation == verified.value.generation
                      && P.Reports(applied.value.state, selection)
      ensures ok ==> mutation.Saving? && journal == old(journal) + [P.ReadSent(generation, selection, applied.value.at)]
      ensures !ok ==> Model() == old(Model())
    {
      P.StepKeepsSound(Model(), P.SaveStart(selection));
      ok := P.MatchesVerified(selection, verified) && applied.Some?
        && applied.value.generation == verified.value.generation
        && P.MatchesApplied(selection, applied.value.state);
      if ok {
        mutation := P.Saving(selection, applied.value, |journal|);
        Record(P.ReadSent(applied.value.generation, selection, applied.value.at));
      }
    }

    /** The sidecar's state was read again; persist is called if everything still agrees. */
    method SaveReply(current: P.AppliedState) returns (persists: bool)
      requires Valid() && mutation.Saving?
      modifies this
      ensures Valid() && Model() == P.Step(old(Model()), P.SaveReply(current))
      ensures persists <==> verified.Some? && P.Covers(verified.value.provider, verified.value.ollamaBaseUrl, old(mutation).selection)
                            && applied == Some(old(mutation).localApplied)
                            && applied.value.generation == verified.value.generation
                            && P.Reports(applied.value.state, old(mutation).selection)
                            && P.Reports(current, old(mutation).selection)
      ensures persists ==> mutation == P.Persisting && |journal| == |old(journal)| + 1 && journal[|old(journal)|].Persisted?
                           && journal[|old(journal)|].selection == old(mutation).selection
                           && P.PersistedRightly(journal, |old(journal)|)
      ensures !persists ==> mutation == P.Idle && journal == old(journal)
      ensures verified == old(verified) && applied == old(applied)
    {
      ghost var next := P.Step(Model(), P.SaveReply(current));
      P.SaveReplyPersistsRightly(Model(), current);
      var selection, localApplied, sentAt := mutation.selection, mutation.localApplied, mutation.sentAt;
      persists := P.MatchesVerified(selection, verified)
        && applied == Some(localApplied)
        && localApplied.generation == verified.value.generation
        && P.MatchesApplied(selection, localApplied.state)
        && P.MatchesApplied(selection, current);
      mutation := P.Idle;
      if persists {
        mutation := P.Persisting;
        Record(P.Persisted(localApplied.generation, selection, current, verified.value.at, localApplied.at, sentAt));
      }
      assert Model() == next;
    }

    /** A queued operation ended: its transport failed, or persist returned. */
    method MutationEnds()
      requires Valid()
      modifies this`mutation
      ensures Valid() && mutation == P.Idle && Model() == P.Step(old(Model()), P.MutationError)
    {
      P.StepKeepsSound(Model(), P.MutationError);
      mutation := P.Idle;
    }

    /** Whatever happens next, in the state the object is in. */
    method Handle(e: P.Event)
      requires Valid()
      modifies this
      ensures Valid() && Model() == P.Step(old(Model()), e)
    {
      match e {
        case VerifyStart(id, provider, url) => if id !in checks { Verify(id, provider, url); }
        case VerifyReply(id, provider, url, g) => if id in checks { var _ := VerifyReply(id, provider, url, g); }
        case VerifyError(id, stale, reported) => if id in checks { var _ := VerifyError(id, stale, reported); }
        case ApplyStart(selection) => if mutation == P.Idle { var _ := Apply(selection); }
        case ApplyReply(state) => if mutation.Applying? { var _ := ApplyReply(state); }
        case SaveStart(selection) => if mutation == P.Idle { var _ := Save(selection); }
        case SaveReply(state) => if mutation.Saving? { var _ := SaveReply(state); }
        case MutationError => MutationEnds();
        case PersistDone => if mutation.Persisting? { MutationEnds(); }
      }
    }
  }

  /** Every object's journal, after any events: what was persisted, and the order of the requests. */
  ghost predicate Trustworthy(j: seq<P.Entry>) {
    && (forall k :: 0 <= k < |j| && j[k].Persisted? ==> P.PersistedRightly(j, k) && (j[k].generation < P.SATURATED ==> P.PersistedInOrder(j, k)))
    && (forall m, n :: 0 <= m < n < |j| && j[m].VerifySent? && j[n].VerifySent? ==>
          (j[m].generation < j[n].generation <==> j[m].generation < P.SATURATED))
  }

  lemma {:induction false} SoundIsTrustworthy(s: P.State)
    requires P.Sound(s)
    ensures Trustworthy(s.journal)
  {
    var j := s.journal;
    forall k | 0 <= k < |j| && j[k].Persisted?
      ensures P.PersistedRightly(j, k) && (j[k].generation < P.SATURATED ==> P.PersistedInOrder(j, k))
    {
      assert P.Justified(j, k);
      if j[k].generation < P.SATURATED {
        P.RightlyInOrder(j, k);
      }
    }
  }

  /** A new object handling any events in any order. */
  method Serve(es: seq<P.Event>) returns (t: Transaction)
    ensures fresh(t) && t.Valid() && t.Model() == P.Run(P.Initial, es)
    ensures Trustworthy(t.journal)
  {
    t := new Transaction();
    for i := 0 to |es|
      invariant fresh(t) && t.Valid() && t.Model() == P.Run(P.Initial, es[..i])
    {
      P.RunSnoc(P.Initial, es[..i], es[i]);
      assert es[..i + 1] == es[..i] + [es[i]];
      t.Handle(es[i]);
    }
    assert es[..|es|] == es;
    SoundIsTrustworthy(t.Model());
  }
}
