/**
 Saving the active coding tools: the harnesses are grouped by integration key,
 each group's status is read and a mutation planned, the plans are confirmed
 together, and the confirmed mutations are carried out unless the workspace turns
 out to have changed. The log records every call made outside; each confirmation
 names the status a plan was made from and each mutation the confirmation that
 allowed it.
 */
module HarnessIntegration {
  import opened Wrappers

  // ---------- Data ----------

  /** A kind is present when the integration names a non-empty one; it is the integration key. */
  datatype Harness = Harness(id: string, retired: bool, kind: Option<string>)

  datatype Registration = Unsupported | Absent | Installed | Drifted | RegistrationError

  datatype Ownership = NoOwner | OrkWorks | Ambiguous

  datatype Activation = Active | NeedsTrust | Disabled | UnknownActivation | NotApplicable

  datatype Status = Status(registration: Registration, ownership: Ownership, activation: Activation, diagnostics: seq<string>)

  datatype StatusResult = Read(status: Status) | Unreadable(code: Option<string>)

  datatype Operation = Install | Repair | Uninstall | Skipped

  datatype Plan = Plan(operation: Operation, mutate: bool)

  datatype Group = Group(key: string, consumers: seq<string>)

  datatype Outcome = Succeeded | Failed | NotSupported | StaleWorkspace

  datatype GroupResult = GroupResult(consumers: seq<string>, operation: Operation, outcome: Outcome)

  datatype Saved = Persisted | NotSaved | Stale

  /** The operation planned for a key, and where its status was read. */
  datatype Planned = Planned(operation: Operation, statusAt: nat)

  datatype Call =
    | Capture(stale: bool)
    | Persist
    | List
    | ReadStatus(key: string, result: StatusResult)
    | Confirm(plans: map<string, Planned>, answer: bool)
    | Mutate(operation: Operation, key: string, confirmedAt: nat)

  /** The world outside: every answer it gives, each asked for at most once. */
  datatype World = World(
    stale: nat -> bool,
    persisted: bool,
    revisionChanged: bool,
    harnesses: Option<seq<Harness>>,
    statusOf: string -> StatusResult,
    confirms: bool,
    mutationOf: string -> StatusResult)

  // ---------- Planning ----------

  predicate Harmless(code: string) {
    code == "tool_not_detected" || code == "needs_trust" || code == "unsupported_tool_version"
  }

  predicate ShouldRepair(s: Status) {
    || s.registration == Drifted || s.registration == RegistrationError
    || (s.registration == Installed && exists d :: d in s.diagnostics && !Harmless(d))
  }

  function PlanMutation(enabled: bool, r: StatusResult): Plan {
    if r.Unreadable? || r.status.registration == Unsupported then Plan(Skipped, false)
    else if enabled then
      if r.status.ownership == Ambiguous || r.status.activation == NeedsTrust then Plan(Skipped, false)
      else if r.status.registration == Absent then Plan(Install, true)
      else if ShouldRepair(r.status) then Plan(Repair, true)
      else Plan(Skipped, false)
    else if r.status.ownership == OrkWorks && r.status.registration != Absent then Plan(Uninstall, true)
    else Plan(Skipped, false)
  }

  /** Exactly when each mutation is planned. */
  lemma {:induction false} PlanIff(enabled: bool, r: StatusResult)
    ensures PlanMutation(enabled, r) == Plan(Uninstall, true) <==>
            !enabled && r.Read? && r.status.ownership == OrkWorks && r.status.registration != Absent && r.status.registration != Unsupported
    ensures PlanMutation(enabled, r) == Plan(Install, true) <==>
            enabled && r.Read? && r.status.registration == Absent && r.status.ownership != Ambiguous && r.status.activation != NeedsTrust
    ensures PlanMutation(enabled, r) == Plan(Repair, true) <==>
            && enabled && r.Read? && r.status.ownership != Ambiguous && r.status.activation != NeedsTrust
            && (|| r.status.registration == Drifted
                || r.status.registration == RegistrationError
                || (&& r.status.registration == Installed
                    && exists d :: d in r.status.diagnostics && d !in {"tool_not_detected", "needs_trust", "unsupported_tool_version"}))
    ensures PlanMutation(enabled, r).mutate <==> PlanMutation(enabled, r).operation != Skipped
  {
  }

  // ---------- Grouping ----------

  predicate Uses(h: Harness, key: string) {
    !h.retired && h.kind == Some(key)
  }

  /** The ids of the harnesses that use a key, in order. */
  function Consumers(hs: seq<Harness>, key: string): seq<string> {
    if hs == [] then [] else
    var last := hs[|hs| - 1];
    Consumers(hs[..|hs| - 1], key) + if Uses(last, key) then [last.id] else []
  }

  /** The keys in use. */
  function Keys(hs: seq<Harness>): set<string> {
    set h | h in hs && !h.retired && h.kind.Some? :: h.kind.value
  }

  predicate Enabled(hs: seq<Harness>, ids: set<string>, key: string) {
    exists h :: h in hs && Uses(h, key) && h.id in ids
  }

  lemma {:induction false} ConsumersAreUsers(hs: seq<Harness>, key: string, id: string)
    ensures id in Consumers(hs, key) <==> exists h :: h in hs && Uses(h, key) && h.id == id
  {
    if hs != [] {
      var rest, last := hs[..|hs| - 1], hs[|hs| - 1];
      assert hs == rest + [last];
      ConsumersAreUsers(rest, key, id);
      if h :| h in hs && Uses(h, key) && h.id == id {
        assert h in rest || h == last;
      }
    }
  }

  lemma {:induction false} EnabledByConsumers(hs: seq<Harness>, ids: set<string>, key: string)
    ensures Enabled(hs, ids, key) <==> exists id :: id in Consumers(hs, key) && id in ids
  {
    forall id
      ensures id in Consumers(hs, key) <==> exists h :: h in hs && Uses(h, key) && h.id == id
    {
      ConsumersAreUsers(hs, key, id);
    }
    if h :| h in hs && Uses(h, key) && h.id in ids {
      assert h.id in Consumers(hs, key);
    }
  }

  /** One group for each key in use, holding exactly its users in order. */
  predicate Grouped(hs: seq<Harness>, groups: seq<Group>) {
    && (forall i, j :: 0 <= i < j < |groups| ==> groups[i].key != groups[j].key)
    && (forall g :: g in groups ==> g.key in Keys(hs) && g.consumers == Consumers(hs, g.key))
    && (forall key :: key in Keys(hs) ==> exists g :: g in groups && g.key == key)
  }

  method GroupHarnesses(hs: seq<Harness>) returns (groups: seq<Group>)
    ensures Grouped(hs, groups)
  {
    var order, members := CollectMembers(hs);
    groups := seq(|order|, i requires 0 <= i < |order| && order[i] in members => Group(order[i], members[order[i]]));
    forall key | key in Keys(hs)
      ensures exists g :: g in groups && g.key == key
    {
      var i :| 0 <= i < |order| && order[i] == key;
      assert groups[i] in groups;
    }
  }

  ghost predicate Enumerates(order: seq<string>, keys: set<string>) {
    && (forall key :: key in order <==> key in keys)
    && (forall i, j :: 0 <= i < j < |order| ==> order[i] != order[j])
  }

  lemma {:induction false} EnumeratesMore(order: seq<string>, keys: set<string>, key: string)
    requires Enumerates(order, keys) && key !in keys
    ensures Enumerates(order + [key], keys + {key})
  {
  }

  /** The map of the groups, and its keys in the order they were first put. */
  method CollectMembers(hs: seq<Harness>) returns (order: seq<string>, members: map<string, seq<string>>)
    ensures members.Keys == Keys(hs) && Enumerates(order, members.Keys)
    ensures forall key :: key in members ==> members[key] == Consumers(hs, key)
  {
    order, members := [], map[];
    for n := 0 to |hs|
      invariant members.Keys == Keys(hs[..n]) && Enumerates(order, members.Keys)
      invariant forall key :: key in members ==> members[key] == Consumers(hs[..n], key)
    {
      assert hs[..n + 1] == hs[..n] + [hs[n]];
      var h := hs[n];
      AddHarness(hs[..n], h);
      if !h.retired && h.kind.Some? {
        var key := h.kind.value;
        if key !in members {
          EnumeratesMore(order, members.Keys, key);
          order := order + [key];
        }
        members := members[key := (if key in members then members[key] else []) + [h.id]];
      }
    }
    assert hs[..|hs|] == hs;
  }

  lemma {:induction false} AddHarness(hs: seq<Harness>, h: Harness)
    ensures Keys(hs + [h]) == Keys(hs) + if !h.retired && h.kind.Some? then {h.kind.value} else {}
    ensures forall key :: Consumers(hs + [h], key) == Consumers(hs, key) + if Uses(h, key) then [h.id] else []
    ensures forall key :: key !in Keys(hs) ==> Consumers(hs, key) == []
  {
    assert (hs + [h])[..|hs|] == hs;
    forall key | key !in Keys(hs)
      ensures Consumers(hs, key) == []
    {
      if Consumers(hs, key) != [] {
        ConsumersAreUsers(hs, key, Consumers(hs, key)[0]);
      }
    }
  }

  // ---------- What every log satisfies ----------

  /** The plan was made from a status of that key read earlier. */
  predicate PlannedAt(hs: seq<Harness>, ids: set<string>, log: seq<Call>, key: string, p: Planned, before: nat) {
    && p.statusAt < before <= |log| && log[p.statusAt].ReadStatus? && log[p.statusAt].key == key
    && PlanMutation(Enabled(hs, ids, key), log[p.statusAt].result) == Plan(p.operation, true)
  }

  predicate Justified(hs: seq<Harness>, ids: set<string>, log: seq<Call>, k: nat)
    requires k < |log|
  {
    match log[k]
    case Confirm(plans, _) => forall key :: key in plans ==> PlannedAt(hs, ids, log, key, plans[key], k)
    case Mutate(operation, key, c) =>
      && c < k && log[c].Confirm? && log[c].answer && key in log[c].plans && log[c].plans[key].operation == operation
      && (forall i :: 0 <= i < k ==> log[i] != Capture(true))
      && (forall i :: 0 <= i < k && log[i].Mutate? ==> log[i].key != key)
    case _ => true
  }

  predicate AllJustified(hs: seq<Harness>, ids: set<string>, log: seq<Call>) {
    forall k :: 0 <= k < |log| ==> Justified(hs, ids, log, k)
  }

  /** No stale guard has been observed yet. */
  predicate Fresh(log: seq<Call>) {
    forall i :: 0 <= i < |log| ==> log[i] != Capture(true)
  }

  predicate NotMutated(log: seq<Call>, key: string) {
    forall i :: 0 <= i < |log| && log[i].Mutate? ==> log[i].key != key
  }

  predicate PlansHold(hs: seq<Harness>, ids: set<string>, log: seq<Call>, plans: map<string, Planned>) {
    forall key :: key in plans ==> PlannedAt(hs, ids, log, key, plans[key], |log|)
  }

  lemma {:induction false} JustifiedStays(hs: seq<Harness>, ids: set<string>, log: seq<Call>, call: Call)
    requires AllJustified(hs, ids, log) && Justified(hs, ids, log + [call], |log|)
    ensures AllJustified(hs, ids, log + [call])
  {
    var log' := log + [call];
    assert forall m :: 0 <= m < |log| ==> log'[m] == log[m];
    forall k | 0 <= k < |log'|
      ensures Justified(hs, ids, log', k)
    {
      if k < |log| {
        assert Justified(hs, ids, log, k);
      }
    }
  }

  // ---------- Results ----------

  function StatusOutcome(s: Status): Outcome {
    if s.registration == Unsupported then NotSupported else if s.registration == RegistrationError then Failed else Succeeded
  }

  function NoMutationOutcome(r: StatusResult): Outcome {
    if r.Unreadable? then Failed
    else if r.status.registration == Unsupported then NotSupported
    else if r.status.ownership == Ambiguous then Failed
    else StatusOutcome(r.status)
  }

  predicate AllStale(results: map<string, GroupResult>) {
    forall key :: key in results ==> results[key].outcome == StaleWorkspace
  }

  /** On a stale workspace every group gets a stale result, with the operation it had got to. */
  function StaleResults(hs: seq<Harness>, results: map<string, GroupResult>, plans: map<string, Planned>): (r: map<string, GroupResult>)
    ensures r.Keys == Keys(hs) && AllStale(r)
  {
    map key | key in Keys(hs) ::
      GroupResult(Consumers(hs, key),
                  if key in results then results[key].operation else if key in plans then plans[key].operation else Skipped,
                  StaleWorkspace)
  }

  /** The plan that the status of a key calls for. */
  function PlanFor(w: World, hs: seq<Harness>, ids: set<string>, key: string): Plan {
    PlanMutation(Enabled(hs, ids, key), w.statusOf(key))
  }

  function MutationOutcome(r: StatusResult): Outcome {
    if r.Read? then StatusOutcome(r.status) else Failed
  }

  /** The one result a group ends with when the save runs through. */
  function Expected(w: World, hs: seq<Harness>, ids: set<string>, key: string): GroupResult {
    var plan := PlanFor(w, hs, ids, key);
    GroupResult(Consumers(hs, key), plan.operation,
                if !plan.mutate then NoMutationOutcome(w.statusOf(key))
                else if w.confirms then MutationOutcome(w.mutationOf(key)) else Failed)
  }

  /**
   What a group that was not stale is told, from what was read of it, the answer to the
   confirmation and what the mutation returned: a declined confirmation, an unreadable or
   erroneous status and an ambiguous owner that nothing was done about all fail it.
   */
  lemma {:induction false} OutcomeIff(w: World, hs: seq<Harness>, ids: set<string>, key: string)
    ensures var e, s, m := Expected(w, hs, ids, key), w.statusOf(key), w.mutationOf(key);
            && e.outcome != StaleWorkspace && (s.Unreadable? ==> e.operation == Skipped)
            && (e.outcome == NotSupported <==>
                  || (s.Read? && s.status.registration == Unsupported)
                  || (e.operation != Skipped && w.confirms && m.Read? && m.status.registration == Unsupported))
            && (e.outcome == Failed <==>
                  || s.Unreadable?
                  || (e.operation == Skipped && s.status.registration == RegistrationError)
                  || (e.operation == Skipped && s.status.registration != Unsupported && s.status.ownership == Ambiguous)
                  || (e.operation != Skipped && (!w.confirms || m.Unreadable? || m.status.registration == RegistrationError)))
    ensures forall id :: id in Expected(w, hs, ids, key).consumers <==> exists h :: h in hs && !h.retired && h.kind == Some(key) && h.id == id
  {
    PlanIff(Enabled(hs, ids, key), w.statusOf(key));
    forall id
      ensures id in Consumers(hs, key) <==> exists h :: h in hs && !h.retired && h.kind == Some(key) && h.id == id
    {
      ConsumersAreUsers(hs, key, id);
      if h :| h in hs && Uses(h, key) && h.id == id {
        assert h in hs && !h.retired && h.kind == Some(key) && h.id == id;
      }
      if h :| h in hs && !h.retired && h.kind == Some(key) && h.id == id {
        assert h in hs && Uses(h, key) && h.id == id;
      }
    }
  }

  predicate ResultsRight(w: World, hs: seq<Harness>, ids: set<string>, results: map<string, GroupResult>) {
    forall key :: key in results ==> results[key] == Expected(w, hs, ids, key)
  }

  predicate PlansRight(w: World, hs: seq<Harness>, ids: set<string>, plans: map<string, Planned>) {
    forall key :: key in plans ==> PlanFor(w, hs, ids, key) == Plan(plans[key].operation, true)
  }

  predicate NothingPlanned(w: World, hs: seq<Harness>, ids: set<string>, keys: set<string>) {
    forall key :: key in keys ==> !PlanFor(w, hs, ids, key).mutate
  }

  /** Every mutation planned and confirmed has been issued. */
  predicate MutationsMade(w: World, hs: seq<Harness>, ids: set<string>, log: seq<Call>) {
    w.confirms ==> forall key :: key in Keys(hs) && PlanFor(w, hs, ids, key).mutate ==> !NotMutated(log, key)
  }

  /** A mutation was refused because the integrations had changed meanwhile. */
  predicate Outdated(w: World, log: seq<Call>) {
    exists k :: 0 <= k < |log| && log[k].Mutate? && w.mutationOf(log[k].key) == Unreadable(Some("integration_revision_changed"))
  }

  lemma {:induction false} OutdatedMore(w: World, log: seq<Call>, call: Call)
    ensures Outdated(w, log + [call]) <==>
            Outdated(w, log) || (call.Mutate? && w.mutationOf(call.key) == Unreadable(Some("integration_revision_changed")))
  {
    var more := log + [call];
    assert forall k :: 0 <= k < |log| ==> more[k] == log[k];
    assert more[|log|] == call;
    if Outdated(w, log) {
      var k :| 0 <= k < |log| && log[k].Mutate? && w.mutationOf(log[k].key) == Unreadable(Some("integration_revision_changed"));
      assert more[k].Mutate?;
    }
  }

  // ---------- The save ----------

  /** Before the confirmation: nothing stale was seen and nothing mutated. */
  predicate Quiet(hs: seq<Harness>, ids: set<string>, log: seq<Call>) {
    AllJustified(hs, ids, log) && Fresh(log) && forall i :: 0 <= i < |log| ==> !log[i].Mutate?
  }

  lemma {:induction false} PlansHoldStay(hs: seq<Harness>, ids: set<string>, log: seq<Call>, call: Call, plans: map<string, Planned>)
    requires PlansHold(hs, ids, log, plans)
    ensures PlansHold(hs, ids, log + [call], plans)
  {
    forall key | key in plans
      ensures PlannedAt(hs, ids, log + [call], key, plans[key], |log| + 1)
    {
      assert PlannedAt(hs, ids, log, key, plans[key], |log|);
    }
  }

  /** Ask for the guard and log what it says. */
  method CaptureGuard(w: World, ghost hs: seq<Harness>, ghost ids: set<string>, ghost plans: map<string, Planned>, log0: seq<Call>, n: nat)
    returns (stale: bool, log: seq<Call>)
    requires AllJustified(hs, ids, log0) && Fresh(log0) && PlansHold(hs, ids, log0, plans)
    ensures stale == w.stale(n) && log == log0 + [Capture(stale)]
    ensures AllJustified(hs, ids, log) && PlansHold(hs, ids, log, plans)
    ensures Fresh(log) <==> !stale
    ensures Quiet(hs, ids, log0) && !stale ==> Quiet(hs, ids, log)
    ensures Outdated(w, log) <==> Outdated(w, log0)
  {
    stale := w.stale(n);
    OutdatedMore(w, log0, Capture(stale));
    log := log0 + [Capture(stale)];
    JustifiedStays(hs, ids, log0, Capture(stale));
    PlansHoldStay(hs, ids, log0, Capture(stale), plans);
    assert log[|log0|] == Capture(stale);
  }

  /** Read one group's status and plan from it. */
  method ReadGroup(w: World, hs: seq<Harness>, ids: set<string>, g: Group, plans0: map<string, Planned>, log0: seq<Call>)
    returns (r: StatusResult, mutate: bool, plans: map<string, Planned>, log: seq<Call>)
    requires Quiet(hs, ids, log0) && PlansHold(hs, ids, log0, plans0) && g.consumers == Consumers(hs, g.key)
    ensures log == log0 + [ReadStatus(g.key, r)] && Quiet(hs, ids, log) && PlansHold(hs, ids, log, plans)
    ensures r == w.statusOf(g.key)
    ensures var plan := PlanFor(w, hs, ids, g.key);
            mutate == plan.mutate && plans == if mutate then plans0[g.key := Planned(plan.operation, |log0|)] else plans0
  {
    r := w.statusOf(g.key);
    log := log0 + [ReadStatus(g.key, r)];
    JustifiedStays(hs, ids, log0, ReadStatus(g.key, r));
    PlansHoldStay(hs, ids, log0, ReadStatus(g.key, r), plans0);
    EnabledByConsumers(hs, ids, g.key);
    var enabled := exists id :: id in g.consumers && id in ids;
    var plan := PlanMutation(enabled, r);
    PlanIff(enabled, r);
    mutate, plans := plan.mutate, plans0;
    if mutate {
      assert log[|log0|] == ReadStatus(g.key, r);
      plans := plans[g.key := Planned(plan.operation, |log0|)];
    }
  }

  function KeysOf(groups: seq<Group>): set<string> {
    set g | g in groups :: g.key
  }

  lemma {:induction false} GroupsCoverKeys(hs: seq<Harness>, groups: seq<Group>)
    requires Grouped(hs, groups)
    ensures KeysOf(groups) == Keys(hs)
  {
  }

  lemma {:induction false} OneMoreGroup(groups: seq<Group>, i: nat)
    requires i < |groups|
    ensures KeysOf(groups[..i + 1]) == KeysOf(groups[..i]) + {groups[i].key}
  {
    assert groups[..i + 1] == groups[..i] + [groups[i]];
  }

  lemma {:induction false} KeyIsNew(hs: seq<Harness>, groups: seq<Group>, i: nat)
    requires Grouped(hs, groups) && i < |groups|
    ensures groups[i].key !in KeysOf(groups[..i])
  {
  }

  method ReadStatuses(w: World, hs: seq<Harness>, ids: set<string>, groups: seq<Group>, log0: seq<Call>, n0: nat)
    returns (stale: bool, results: map<string, GroupResult>, plans: map<string, Planned>, log: seq<Call>, n: nat)
    requires Grouped(hs, groups) && Quiet(hs, ids, log0)
    ensures AllJustified(hs, ids, log) && PlansHold(hs, ids, log, plans)
    ensures stale <==> !Fresh(log)
    ensures !stale ==> Quiet(hs, ids, log) && results.Keys + plans.Keys == Keys(hs) && results.Keys !! plans.Keys
    ensures !stale ==> ResultsRight(w, hs, ids, results) && PlansRight(w, hs, ids, plans)
    ensures !stale ==> NothingPlanned(w, hs, ids, Keys(hs) - plans.Keys)
  {
    results, plans, log, n := map[], map[], log0, n0;
    for i := 0 to |groups|
      invariant Quiet(hs, ids, log) && PlansHold(hs, ids, log, plans)
      invariant results.Keys + plans.Keys == KeysOf(groups[..i]) && results.Keys !! plans.Keys
      invariant ResultsRight(w, hs, ids, results) && PlansRight(w, hs, ids, plans)
      invariant NothingPlanned(w, hs, ids, results.Keys)
    {
      var g := groups[i];
      OneMoreGroup(groups, i);
      KeyIsNew(hs, groups, i);
      PlanIff(Enabled(hs, ids, g.key), w.statusOf(g.key));
      var r, mutate;
      r, mutate, plans, log := ReadGroup(w, hs, ids, g, plans, log);
      if !mutate {
        results := results[g.key := GroupResult(g.consumers, Skipped, NoMutationOutcome(r))];
        continue;
      }
      stale, log := CaptureGuard(w, hs, ids, plans, log, n);
      n := n + 1;
      if stale {
        return true, results, plans, log, n;
      }
    }
    stale := false;
    assert groups[..|groups|] == groups;
    GroupsCoverKeys(hs, groups);
  }

  // ---------- Mutations ----------

  /** After the confirmation: the plans that were confirmed, and no stale guard yet. */
  predicate Confirmed(hs: seq<Harness>, ids: set<string>, log: seq<Call>, plans: map<string, Planned>, at: nat) {
    AllJustified(hs, ids, log) && Fresh(log) && at < |log| && log[at] == Confirm(plans, true)
  }

  /** Carry out one confirmed mutation; on a stale guard before or after it, stop. */
  method MutateKey(w: World, hs: seq<Harness>, ids: set<string>, key: string, plans: map<string, Planned>, at: nat, log0: seq<Call>, n: nat)
    returns (stale: bool, log: seq<Call>)
    requires Confirmed(hs, ids, log0, plans, at) && key in plans && NotMutated(log0, key)
    ensures AllJustified(hs, ids, log) && (!stale ==> Confirmed(hs, ids, log, plans, at))
    ensures forall other :: other != key && NotMutated(log0, other) ==> NotMutated(log, other)
    ensures log0 <= log && (!stale ==> !NotMutated(log, key))
    ensures stale <==> !Fresh(log)
    ensures !stale ==> (Outdated(w, log) <==> Outdated(w, log0) || w.mutationOf(key) == Unreadable(Some("integration_revision_changed")))
  {
    ghost var none: map<string, Planned> := map[];
    stale, log := CaptureGuard(w, hs, ids, none, log0, n);
    if stale {
      return;
    }
    var call := Mutate(plans[key].operation, key, at);
    JustifiedStays(hs, ids, log, call);
    OutdatedMore(w, log, call);
    log := log + [call];
    ghost var i := |log| - 1;
    stale, log := CaptureGuard(w, hs, ids, none, log, n + 1);
    assert log[i] == call;
  }

  lemma {:induction false} MutatedIsExpected(w: World, hs: seq<Harness>, ids: set<string>, g: Group, plans: map<string, Planned>, results: map<string, GroupResult>)
    requires w.confirms && PlansRight(w, hs, ids, plans) && ResultsRight(w, hs, ids, results)
    requires g.consumers == Consumers(hs, g.key) && g.key in plans
    ensures ResultsRight(w, hs, ids,
              results[g.key := GroupResult(g.consumers, plans[g.key].operation, MutationOutcome(w.mutationOf(g.key)))])
  {
  }

  /** What a declined confirmation leaves. */
  function Declined(hs: seq<Harness>, plans: map<string, Planned>, results: map<string, GroupResult>): map<string, GroupResult> {
    results + map key | key in plans :: GroupResult(Consumers(hs, key), plans[key].operation, Failed)
  }

  lemma {:induction false} DeclinedIsExpected(w: World, hs: seq<Harness>, ids: set<string>, plans: map<string, Planned>, results: map<string, GroupResult>)
    requires !w.confirms && PlansRight(w, hs, ids, plans) && ResultsRight(w, hs, ids, results)
    ensures ResultsRight(w, hs, ids, Declined(hs, plans, results))
    ensures Declined(hs, plans, results).Keys == results.Keys + plans.Keys
  {
  }

  lemma {:induction false} MutatedStays(log: seq<Call>, more: seq<Call>)
    requires log <= more
    ensures forall key :: !NotMutated(log, key) ==> !NotMutated(more, key)
  {
    forall key | NotMutated(more, key)
      ensures NotMutated(log, key)
    {
      assert forall i :: 0 <= i < |log| ==> log[i] == more[i];
    }
  }

  /** One group's mutation and its result. */
  method MutateGroup(w: World, hs: seq<Harness>, ids: set<string>, g: Group, plans: map<string, Planned>, at: nat,
                     results0: map<string, GroupResult>, log0: seq<Call>, n: nat)
    returns (stale: bool, results: map<string, GroupResult>, log: seq<Call>)
    requires Confirmed(hs, ids, log0, plans, at) && g.key in plans && NotMutated(log0, g.key) && g.consumers == Consumers(hs, g.key)
    requires w.confirms && ResultsRight(w, hs, ids, results0) && PlansRight(w, hs, ids, plans) && !Outdated(w, log0)
    ensures AllJustified(hs, ids, log) && ResultsRight(w, hs, ids, results)
    ensures !stale ==> Confirmed(hs, ids, log, plans, at) && results.Keys == results0.Keys + {g.key}
    ensures forall other :: other != g.key && NotMutated(log0, other) ==> NotMutated(log, other)
    ensures log0 <= log && (!stale ==> !NotMutated(log, g.key))
    ensures stale <==> !Fresh(log) || Outdated(w, log)
  {
    results := results0;
    stale, log := MutateKey(w, hs, ids, g.key, plans, at, log0, n);
    if stale {
      return;
    }
    var outcome := w.mutationOf(g.key);
    if outcome == Unreadable(Some("integration_revision_changed")) {
      return true, results, log;
    }
    MutatedIsExpected(w, hs, ids, g, plans, results);
    results := results[g.key := GroupResult(g.consumers, plans[g.key].operation, MutationOutcome(outcome))];
  }

  /** Of the planned keys, exactly those have been mutated. */
  predicate Done(plans: map<string, Planned>, keys: set<string>, log: seq<Call>) {
    forall key :: key in plans ==> (key in keys <==> !NotMutated(log, key))
  }

  lemma {:induction false} DoneMore(plans: map<string, Planned>, keys: set<string>, key: string, log: seq<Call>, more: seq<Call>)
    requires Done(plans, keys, log) && log <= more && !NotMutated(more, key)
    requires forall other :: other != key && NotMutated(log, other) ==> NotMutated(more, other)
    ensures Done(plans, keys + {key}, more)
  {
    MutatedStays(log, more);
  }

  lemma {:induction false} PartMore(settled: set<string>, planned: set<string>, keys: set<string>, key: string)
    ensures settled + planned * (keys + {key}) == settled + planned * keys + if key in planned then {key} else {}
  {
  }

  lemma {:induction false} DoneBeside(plans: map<string, Planned>, keys: set<string>, key: string, log: seq<Call>)
    requires Done(plans, keys, log) && key !in plans
    ensures Done(plans, keys + {key}, log)
  {
  }

  method MutateAll(w: World, hs: seq<Harness>, ids: set<string>, groups: seq<Group>, plans: map<string, Planned>, at: nat,
                   results0: map<string, GroupResult>, log0: seq<Call>, n0: nat)
    returns (stale: bool, results: map<string, GroupResult>, log: seq<Call>, n: nat)
    requires Grouped(hs, groups) && Confirmed(hs, ids, log0, plans, at) && Done(plans, {}, log0) && !Outdated(w, log0)
    requires w.confirms && ResultsRight(w, hs, ids, results0) && PlansRight(w, hs, ids, plans) && plans.Keys <= KeysOf(groups)
    ensures AllJustified(hs, ids, log) && ResultsRight(w, hs, ids, results)
    ensures !stale ==> Fresh(log) && results.Keys == results0.Keys + plans.Keys
    ensures !stale ==> forall key :: key in plans ==> !NotMutated(log, key)
    ensures stale <==> !Fresh(log) || Outdated(w, log)
  {
    results, log, n := results0, log0, n0;
    for i := 0 to |groups|
      invariant Confirmed(hs, ids, log, plans, at) && ResultsRight(w, hs, ids, results)
      invariant Done(plans, KeysOf(groups[..i]), log) && !Outdated(w, log)
      invariant results.Keys == results0.Keys + plans.Keys * KeysOf(groups[..i])
    {
      OneMoreGroup(groups, i);
      KeyIsNew(hs, groups, i);
      ghost var keys := KeysOf(groups[..i]);
      PartMore(results0.Keys, plans.Keys, keys, groups[i].key);
      if groups[i].key !in plans {
        DoneBeside(plans, keys, groups[i].key, log);
      } else {
        ghost var before := log;
        stale, results, log := MutateGroup(w, hs, ids, groups[i], plans, at, results, log, n);
        n := n + 2;
        if stale {
          return;
        }
        DoneMore(plans, keys, groups[i].key, before, log);
      }
    }
    stale := false;
    assert groups[..|groups|] == groups;
    assert plans.Keys * KeysOf(groups) == plans.Keys;
  }

  /** The whole save. Only its guard, its two answers and the tools' listing come from outside the groups. */
  method Save(w: World, ids: set<string>) returns (saved: Saved, results: map<string, GroupResult>, log: seq<Call>)
    ensures AllJustified(if w.harnesses.Some? then w.harnesses.value else [], ids, log)
    ensures saved == Persisted && w.harnesses.Some? ==> results.Keys == Keys(w.harnesses.value) && Fresh(log)
    ensures saved == Persisted && w.harnesses.Some? ==> ResultsRight(w, w.harnesses.value, ids, results)
    ensures saved == Persisted && w.harnesses.Some? ==> MutationsMade(w, w.harnesses.value, ids, log)
    ensures saved == NotSaved || (saved == Persisted && w.harnesses.None?) ==> results == map[]
    ensures saved == NotSaved <==> Fresh(log) && !w.persisted && !w.revisionChanged
    ensures saved == Stale <==> !Fresh(log) || (!w.persisted && w.revisionChanged) || Outdated(w, log)
    ensures saved == Stale && results != map[] ==> w.harnesses.Some? && results.Keys == Keys(w.harnesses.value)
    ensures saved == Stale ==> AllStale(results)
  {
    var hs := if w.harnesses.Some? then w.harnesses.value else [];
    results, log := map[], [Persist];
    ghost var none: map<string, Planned> := map[];
    var stale;
    stale, log := CaptureGuard(w, hs, ids, none, log, 0);
    if stale {
      return Stale, results, log;
    }
    if !w.persisted {
      return if w.revisionChanged then Stale else NotSaved, results, log;
    }
    JustifiedStays(hs, ids, log, List);
    log := log + [List];
    if w.harnesses.None? {
      return Persisted, results, log;
    }
    var groups := GroupHarnesses(hs);
    GroupsCoverKeys(hs, groups);
    stale, log := CaptureGuard(w, hs, ids, none, log, 1);
    if stale {
      return Stale, StaleResults(hs, map[], map[]), log;
    }
    var plans, n;
    stale, results, plans, log, n := ReadStatuses(w, hs, ids, groups, log, 2);
    if stale {
      return Stale, StaleResults(hs, results, plans), log;
    }
    if plans != map[] {
      saved, results, log, n := ConfirmAndMutate(w, hs, ids, groups, plans, results, log, n);
      if saved != Persisted || !w.confirms {
        return saved, results, log;
      }
    }
    ghost var before := log;
    stale, log := CaptureGuard(w, hs, ids, none, log, n);
    MutatedStays(before, log);
    if stale {
      return Stale, StaleResults(hs, results, plans), log;
    }
    saved := Persisted;
  }

  /** Confirm all plans together; a declined confirmation fails every one of them. */
  method ConfirmAndMutate(w: World, hs: seq<Harness>, ids: set<string>, groups: seq<Group>, plans: map<string, Planned>,
                          results0: map<string, GroupResult>, log0: seq<Call>, n0: nat)
    returns (saved: Saved, results: map<string, GroupResult>, log: seq<Call>, n: nat)
    requires Grouped(hs, groups) && Quiet(hs, ids, log0) && PlansHold(hs, ids, log0, plans)
    requires results0.Keys + plans.Keys == Keys(hs)
    requires ResultsRight(w, hs, ids, results0) && PlansRight(w, hs, ids, plans)
    ensures AllJustified(hs, ids, log) && saved != NotSaved && results.Keys == Keys(hs)
    ensures saved == Persisted ==> Fresh(log) && ResultsRight(w, hs, ids, results)
    ensures saved == Persisted && w.confirms ==> forall key :: key in plans ==> !NotMutated(log, key)
    ensures saved == Stale <==> !Fresh(log) || Outdated(w, log)
    ensures saved == Stale ==> AllStale(results)
  {
    GroupsCoverKeys(hs, groups);
    var stale, at;
    stale, at, log := AskConfirmation(w, hs, ids, plans, log0, n0);
    n := n0 + 1;
    if stale {
      return Stale, StaleResults(hs, results0, plans), log, n;
    }
    if !w.confirms {
      DeclinedIsExpected(w, hs, ids, plans, results0);
      return Persisted, Declined(hs, plans, results0), log, n;
    }
    stale, results, log, n := MutateAll(w, hs, ids, groups, plans, at, results0, log, n);
    if stale {
      return Stale, StaleResults(hs, results, plans), log, n;
    }
    saved := Persisted;
  }

  /** Ask once for all plans, then look at the guard again. */
  method AskConfirmation(w: World, hs: seq<Harness>, ids: set<string>, plans: map<string, Planned>, log0: seq<Call>, n: nat)
    returns (stale: bool, at: nat, log: seq<Call>)
    requires Quiet(hs, ids, log0) && PlansHold(hs, ids, log0, plans)
    ensures AllJustified(hs, ids, log) && (Fresh(log) <==> !stale) && forall key :: NotMutated(log, key)
    ensures !stale && w.confirms ==> Confirmed(hs, ids, log, plans, at)
    ensures !Outdated(w, log)
  {
    at := |log0|;
    var call := Confirm(plans, w.confirms);
    PlansHoldStay(hs, ids, log0, call, plans);
    JustifiedStays(hs, ids, log0, call);
    log := log0 + [call];
    assert log[at] == call;
    OutdatedMore(w, log0, call);
    ghost var none: map<string, Planned> := map[];
    stale, log := CaptureGuard(w, hs, ids, none, log, n);
  }

  // ---------- What a save may do ----------

  /**
   An uninstall is issued for a key only if no active harness in use maps to it, OrkWorks
   owns the integration, and that very plan was confirmed; and no mutation of any kind
   follows an observed stale guard or repeats a key.
   */
  lemma {:induction false} MutationsAreAllowed(hs: seq<Harness>, ids: set<string>, log: seq<Call>, k: nat)
    requires AllJustified(hs, ids, log) && k < |log| && log[k].Mutate?
    ensures var c := log[k].confirmedAt;
            && c < k && log[c].Confirm? && log[c].answer && log[k].key in log[c].plans
            && log[c].plans[log[k].key].operation == log[k].operation != Skipped
            && log[c].plans[log[k].key].statusAt < c
            && log[log[c].plans[log[k].key].statusAt].ReadStatus? && log[log[c].plans[log[k].key].statusAt].key == log[k].key
    ensures var r := log[log[log[k].confirmedAt].plans[log[k].key].statusAt].result;
            && r.Read? && r.status.registration != Unsupported
            && (log[k].operation == Uninstall ==>
                  && (forall h :: h in hs && !h.retired && h.kind == Some(log[k].key) ==> h.id !in ids)
                  && r.status.ownership == OrkWorks && r.status.registration != Absent)
            && (log[k].operation != Uninstall ==>
                  && (exists h :: h in hs && !h.retired && h.kind == Some(log[k].key) && h.id in ids)
                  && r.status.ownership != Ambiguous && r.status.activation != NeedsTrust)
    ensures forall i :: 0 <= i < k ==> log[i] != Capture(true)
    ensures forall i :: 0 <= i < k && log[i].Mutate? ==> log[i].key != log[k].key
  {
    assert Justified(hs, ids, log, k);
    var c, key := log[k].confirmedAt, log[k].key;
    assert Justified(hs, ids, log, c);
    assert PlannedAt(hs, ids, log, key, log[c].plans[key], c);
    PlanIff(Enabled(hs, ids, key), log[log[c].plans[key].statusAt].result);
    if log[k].operation != Uninstall {
      var h :| h in hs && Uses(h, key) && h.id in ids;
      assert h in hs && !h.retired && h.kind == Some(key) && h.id in ids;
    } else {
      assert forall h :: h in hs && Uses(h, key) ==> h.id !in ids;
    }
  }
}
