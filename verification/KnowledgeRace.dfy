/**
 Any number of processes share two durable knowledge slots and a packaged
 starter record. A commit writes the slots in two steps under a lock and may fail
 or crash at any point; loads take no lock, so each of their reads may see a
 different moment. Verification is deterministic, so a slot is either a verified
 record or nothing; but any read may fail and make the slot look empty.
 */
module KnowledgeRace {
  import opened Wrappers

  // ---------- Data ----------

  datatype Identity = Identity(
    bundleSha256: string,
    formatVersion: nat,
    privacyPolicyVersion: nat,
    version: string,
    sequence: nat,
    publicKeySha256: string)

  datatype Knowledge = Knowledge(identity: Identity, activation: string)

  type Slot = Option<Knowledge>

  /** Sequence of a slot; an empty or damaged slot ranks below every record. */
  function Seq(k: Slot): int {
    if k.Some? then k.value.identity.sequence else -1
  }

  function Max(a: int, b: int): int {
    if a >= b then a else b
  }

  datatype LoadResult = Equivocation | Loaded(selected: Slot)

  predicate Clash(a: Slot, b: Slot) {
    a.Some? && b.Some? && Seq(a) == Seq(b) && a.value.identity != b.value.identity
  }

  /** The highest of the three records, earlier ones first among equals. */
  function Select(active: Slot, previous: Slot, starter: Slot): LoadResult {
    if Clash(active, previous) || Clash(active, starter) || Clash(previous, starter) then Equivocation
    else if Seq(active) >= Seq(previous) && Seq(active) >= Seq(starter) then Loaded(active)
    else if Seq(previous) >= Seq(starter) then Loaded(previous)
    else Loaded(starter)
  }

  /** Which of the three reads of a load fail. */
  datatype Misses = Misses(active: bool, previous: bool, starter: bool)

  const NoMisses := Misses(false, false, false)

  function Masked(k: Slot, missed: bool): Slot {
    if missed then None else k
  }

  /** Where a commit is, and what it still holds. */
  datatype Pc =
    | Idle
    | Locked(candidate: Knowledge)
    | Decided(candidate: Knowledge, current: Slot)
    | WrotePrevious(candidate: Knowledge)
    | WroteActive(candidate: Knowledge)

  datatype Process = Process(memory: Slot, pc: Pc)

  /** An unlocked load in flight, with which of its reads failed and the slot sequences at its start. */
  datatype Loader = Loader(
    process: nat,
    active: Option<Slot>,
    previous: Option<Slot>,
    missedActive: bool,
    missedPrevious: bool,
    activeAtStart: int,
    previousAtStart: int)

  datatype State = State(
    active: Slot,
    previous: Slot,
    starter: Slot,
    lock: Option<nat>,
    processes: seq<Process>,
    loaders: seq<Loader>)

  datatype Event =
    | Acquire(p: nat, candidate: Knowledge)
    | CommitLoad(p: nat, misses: Misses)
    | WritePrevious(p: nat, effect: bool, error: bool)
    | WriteActive(p: nat, effect: bool)
    | Confirm(p: nat)
    | Abort(p: nat)
    | Crash(p: nat)
    | LoadBegin(p: nat)
    | LoadActive(l: nat, missed: bool)
    | LoadPrevious(l: nat, missed: bool)
    | LoadFinish(l: nat, missed: bool)

  // ---------- Steps ----------

  function Highest(s: State): int {
    Max(Seq(s.active), Max(Seq(s.previous), Seq(s.starter)))
  }

  function Put(s: State, p: nat, proc: Process): State
    requires p < |s.processes|
  {
    s.(processes := s.processes[p := proc])
  }

  /** Leave the critical section without a result. */
  function Throw(s: State, p: nat): State
    requires p < |s.processes|
  {
    Put(s, p, s.processes[p].(pc := Idle)).(lock := None)
  }

  /** Leave the critical section; the updater stores what the commit returned. */
  function Return(s: State, p: nat, result: Slot): State
    requires p < |s.processes|
  {
    Put(s, p, Process(result, Idle)).(lock := None)
  }

  /** What a load at this moment selects. */
  function Visible(s: State, m: Misses): LoadResult {
    Select(Masked(s.active, m.active), Masked(s.previous, m.previous), Masked(s.starter, m.starter))
  }

  function OnCommitLoad(s: State, p: nat, misses: Misses): State
    requires p < |s.processes|
  {
    if !s.processes[p].pc.Locked? then s else
    var candidate := s.processes[p].pc.candidate;
    match Visible(s, misses)
    case Equivocation => Throw(s, p)
    case Loaded(current) =>
      if Seq(current) > candidate.identity.sequence then Return(s, p, current)
      else if Seq(current) == candidate.identity.sequence then
        if current.value.identity == candidate.identity then Return(s, p, current) else Throw(s, p)
      else Put(s, p, s.processes[p].(pc := Decided(candidate, current)))
  }

  /** A replace that reports success took effect; one that reports an error may have. */
  function OnWritePrevious(s: State, p: nat, effect: bool, error: bool): State
    requires p < |s.processes|
  {
    if !s.processes[p].pc.Decided? then s else
    var Decided(candidate, current) := s.processes[p].pc;
    if current.None? then Put(s, p, s.processes[p].(pc := WrotePrevious(candidate))) else
    var s1 := s.(previous := if effect || !error then current else s.previous);
    if error then Throw(s1, p) else Put(s1, p, s1.processes[p].(pc := WrotePrevious(candidate)))
  }

  function OnWriteActive(s: State, p: nat, effect: bool): State
    requires p < |s.processes|
  {
    if !s.processes[p].pc.WrotePrevious? then s else
    var candidate := s.processes[p].pc.candidate;
    Put(s, p, s.processes[p].(pc := WroteActive(candidate))).(active := if effect then Some(candidate) else s.active)
  }

  /** Both the error path and the success path of the active write read the slot back. */
  function OnConfirm(s: State, p: nat): State
    requires p < |s.processes|
  {
    if !s.processes[p].pc.WroteActive? then s
    else if s.active.Some? && s.active.value.identity == s.processes[p].pc.candidate.identity then Return(s, p, s.active)
    else Throw(s, p)
  }

  /** Keep the higher of the memory and a durable record; None means equivocation. */
  function Retain(memory: Slot, durable: Slot): Option<Slot> {
    if durable.None? then Some(memory)
    else if Clash(memory, durable) then None
    else if Seq(durable) > Seq(memory) then Some(durable)
    else Some(memory)
  }

  function DropLoader(s: State, l: nat): State
    requires l < |s.loaders|
  {
    s.(loaders := s.loaders[..l] + s.loaders[l + 1..])
  }

  /** What a load that has read both slots returns. */
  function LoadOutcome(s: State, l: Loader, missedStarter: bool): LoadResult
    requires l.active.Some? && l.previous.Some?
  {
    Select(l.active.value, l.previous.value, Masked(s.starter, missedStarter))
  }

  function OnLoadFinish(s: State, l: nat, missedStarter: bool): State
    requires l < |s.loaders|
  {
    var loader := s.loaders[l];
    if loader.active.None? || loader.previous.None? || loader.process >= |s.processes| then s else
    var s1 := DropLoader(s, l);
    match LoadOutcome(s, loader, missedStarter)
    case Equivocation => s1
    case Loaded(durable) =>
      var memory := Retain(s.processes[loader.process].memory, durable);
      if memory.None? then s1 else Put(s1, loader.process, s.processes[loader.process].(memory := memory.value))
  }

  function WithoutProcess(loaders: seq<Loader>, p: nat): (r: seq<Loader>)
    ensures forall l :: l in r ==> l in loaders
  {
    if loaders == [] then [] else
    (if loaders[0].process == p then [] else [loaders[0]]) + WithoutProcess(loaders[1..], p)
  }

  function ProcessStep(s: State, e: Event, p: nat): State
    requires p < |s.processes|
  {
    match e
    case Acquire(_, candidate) =>
      if s.lock.Some? || s.processes[p].pc != Idle then s
      else Put(s, p, s.processes[p].(pc := Locked(candidate))).(lock := Some(p))
    case CommitLoad(_, misses) => OnCommitLoad(s, p, misses)
    case WritePrevious(_, effect, error) => OnWritePrevious(s, p, effect, error)
    case WriteActive(_, effect) => OnWriteActive(s, p, effect)
    case Confirm(_) => OnConfirm(s, p)
    case Abort(_) => if s.processes[p].pc == Idle then s else Throw(s, p)
    case Crash(_) =>
      Put(s, p, Process(None, Idle)).(lock := if s.lock == Some(p) then None else s.lock,
                                      loaders := WithoutProcess(s.loaders, p))
    case LoadBegin(_) => s.(loaders := s.loaders + [Loader(p, None, None, false, false, Seq(s.active), Seq(s.previous))])
    case _ => s
  }

  function ReadActive(s: State, l: Loader, missed: bool): Loader {
    l.(active := Some(Masked(s.active, missed)), missedActive := missed)
  }

  function ReadPrevious(s: State, l: Loader, missed: bool): Loader {
    l.(previous := Some(Masked(s.previous, missed)), missedPrevious := missed)
  }

  function LoaderStep(s: State, e: Event, l: nat): State
    requires l < |s.loaders|
  {
    match e
    case LoadActive(_, missed) => s.(loaders := s.loaders[l := ReadActive(s, s.loaders[l], missed)])
    case LoadPrevious(_, missed) => s.(loaders := s.loaders[l := ReadPrevious(s, s.loaders[l], missed)])
    case LoadFinish(_, missed) => OnLoadFinish(s, l, missed)
    case _ => s
  }

  function Step(s: State, e: Event): State {
    match e
    case LoadActive(l, _) => if l < |s.loaders| then LoaderStep(s, e, l) else s
    case LoadPrevious(l, _) => if l < |s.loaders| then LoaderStep(s, e, l) else s
    case LoadFinish(l, _) => if l < |s.loaders| then LoaderStep(s, e, l) else s
    case _ => if e.p < |s.processes| then ProcessStep(s, e, e.p) else s
  }

  function Run(s: State, es: seq<Event>): State
    decreases |es|
  {
    if es == [] then s else Run(Step(s, es[0]), es[1..])
  }

  /** The failing reads hide nothing higher than what is still seen. */
  predicate SeesHighest(s: State, m: Misses) {
    Visible(s, m).Loaded? && Seq(Visible(s, m).selected) == Highest(s)
  }

  /** While a commit decides, it sees the highest record; any other read may fail. */
  predicate Sighted(s: State, e: Event) {
    e.CommitLoad? ==> SeesHighest(s, e.misses)
  }

  // ---------- Invariant ----------

  /** Everything a slot ever held: no two identities share a sequence, and none outranks the slots. */
  ghost predicate HistoryInv(s: State, h: set<Identity>) {
    && (forall a, b :: a in h && b in h && a.sequence == b.sequence ==> a == b)
    && (forall a :: a in h ==> a.sequence <= Highest(s))
  }

  ghost predicate Known(k: Slot, h: set<Identity>) {
    k.Some? ==> k.value.identity in h
  }

  /** What the holder of the lock knows; nobody else changes a slot meanwhile. */
  ghost predicate PcInv(s: State, h: set<Identity>, pc: Pc) {
    match pc
    case Idle | Locked(_) => true
    case Decided(c, current) => Known(current, h) && Seq(current) == Highest(s) < c.identity.sequence
    case WrotePrevious(c) => Highest(s) < c.identity.sequence
    case WroteActive(c) => Highest(s) <= c.identity.sequence
  }

  /** What a read owes to a slot that held the sequence n when the load began. */
  function SeenAtLeast(n: int, missed: bool): int {
    if missed then -1 else n
  }

  ghost predicate LoaderInv(s: State, h: set<Identity>, l: Loader) {
    && Seq(s.active) >= l.activeAtStart && Seq(s.previous) >= l.previousAtStart
    && (l.active.Some? ==> Known(l.active.value, h) && Seq(l.active.value) >= SeenAtLeast(l.activeAtStart, l.missedActive))
    && (l.previous.Some? ==> Known(l.previous.value, h) && Seq(l.previous.value) >= SeenAtLeast(l.previousAtStart, l.missedPrevious))
  }

  ghost predicate SlotsInv(s: State, h: set<Identity>) {
    HistoryInv(s, h) && Known(s.active, h) && Known(s.previous, h) && Known(s.starter, h)
  }

  ghost predicate Inv(s: State, h: set<Identity>) {
    && SlotsInv(s, h)
    && (s.lock.Some? ==> s.lock.value < |s.processes|)
    && (forall p :: 0 <= p < |s.processes| ==>
          Known(s.processes[p].memory, h) && (s.processes[p].pc != Idle <==> s.lock == Some(p)))
    && (s.lock.Some? ==> PcInv(s, h, s.processes[s.lock.value].pc))
    && (forall l :: l in s.loaders ==> LoaderInv(s, h, l))
  }

  /** The step that extends the history: an active write that took effect. */
  ghost function History(s: State, e: Event, h: set<Identity>): set<Identity> {
    if e.WriteActive? && e.effect && e.p < |s.processes| && s.processes[e.p].pc.WrotePrevious?
    then h + {s.processes[e.p].pc.candidate.identity} else h
  }

  // ---------- Every step keeps the invariant ----------

  /** No slot falls back, and the starter never changes. */
  predicate Rises(s: State, t: State) {
    Seq(t.active) >= Seq(s.active) && Seq(t.previous) >= Seq(s.previous) && t.starter == s.starter
  }

  lemma {:induction false} LoadersSurvive(s: State, t: State, h: set<Identity>, h': set<Identity>)
    requires forall l :: l in s.loaders ==> LoaderInv(s, h, l)
    requires Rises(s, t) && h <= h'
    ensures forall l :: l in s.loaders ==> LoaderInv(t, h', l)
  {
  }

  /** A process that holds the lock moves on: the rest of the state needs no second look. */
  lemma {:induction false} HolderMoves(s: State, t: State, h: set<Identity>, h': set<Identity>, p: nat, proc: Process)
    requires Inv(s, h) && p < |s.processes| && s.lock == Some(p)
    requires t.processes == s.processes[p := proc] && t.loaders == s.loaders
    requires t.lock == if proc.pc == Idle then None else Some(p)
    requires Rises(s, t) && h <= h' && SlotsInv(t, h')
    requires Known(proc.memory, h') && PcInv(t, h', proc.pc)
    ensures Inv(t, h')
  {
    LoadersSurvive(s, t, h, h');
    forall q | 0 <= q < |t.processes|
      ensures Known(t.processes[q].memory, h') && (t.processes[q].pc != Idle <==> t.lock == Some(q))
    {
      if q != p {
        assert t.processes[q] == s.processes[q];
      }
    }
  }

  /** Whatever is read is known, so nothing clashes; and with no failed read it is the highest. */
  lemma {:induction false} VisibleIsKnown(s: State, h: set<Identity>, m: Misses)
    requires SlotsInv(s, h)
    ensures Visible(s, m).Loaded? && Known(Visible(s, m).selected, h) && Seq(Visible(s, m).selected) <= Highest(s)
    ensures m == NoMisses ==> SeesHighest(s, m)
  {
  }

  /** What the holder of the lock becomes once it has loaded. */
  function AfterLoad(proc: Process, current: Slot): Process
    requires proc.pc.Locked?
  {
    var candidate := proc.pc.candidate;
    if Seq(current) > candidate.identity.sequence then Process(current, Idle)
    else if Seq(current) == candidate.identity.sequence then
      if current.value.identity == candidate.identity then Process(current, Idle) else proc.(pc := Idle)
    else proc.(pc := Decided(candidate, current))
  }

  lemma {:induction false} CommitLoadKeepsInv(s: State, h: set<Identity>, p: nat, m: Misses)
    requires Inv(s, h) && p < |s.processes| && SeesHighest(s, m)
    ensures Inv(OnCommitLoad(s, p, m), h)
  {
    if s.processes[p].pc.Locked? {
      VisibleIsKnown(s, h, m);
      var proc := AfterLoad(s.processes[p], Visible(s, m).selected);
      var t := OnCommitLoad(s, p, m);
      assert t == Put(s, p, proc).(lock := if proc.pc == Idle then None else Some(p));
      HolderMoves(s, t, h, h, p, proc);
    }
  }

  lemma {:induction false} WritePreviousKeepsInv(s: State, h: set<Identity>, p: nat, effect: bool, error: bool)
    requires Inv(s, h) && p < |s.processes|
    ensures Inv(OnWritePrevious(s, p, effect, error), h)
    ensures Rises(s, OnWritePrevious(s, p, effect, error))
  {
    if s.processes[p].pc.Decided? {
      var t := OnWritePrevious(s, p, effect, error);
      HolderMoves(s, t, h, h, p, t.processes[p]);
    }
  }

  lemma {:induction false} WriteActiveKeepsInv(s: State, h: set<Identity>, p: nat, effect: bool)
    requires Inv(s, h) && p < |s.processes|
    ensures Inv(OnWriteActive(s, p, effect), History(s, WriteActive(p, effect), h))
    ensures Rises(s, OnWriteActive(s, p, effect))
  {
    if s.processes[p].pc.WrotePrevious? {
      var t := OnWriteActive(s, p, effect);
      var h' := History(s, WriteActive(p, effect), h);
      HolderMoves(s, t, h, h', p, t.processes[p]);
    }
  }

  lemma {:induction false} ConfirmKeepsInv(s: State, h: set<Identity>, p: nat)
    requires Inv(s, h) && p < |s.processes|
    ensures Inv(OnConfirm(s, p), h)
  {
    if s.processes[p].pc.WroteActive? {
      var t := OnConfirm(s, p);
      HolderMoves(s, t, h, h, p, t.processes[p]);
    }
  }

  lemma {:induction false} LeaveKeepsInv(s: State, h: set<Identity>, p: nat)
    requires Inv(s, h) && p < |s.processes|
    ensures Inv(Step(s, Abort(p)), h) && Inv(Step(s, Crash(p)), h)
  {
    if s.processes[p].pc != Idle {
      var t := Throw(s, p);
      HolderMoves(s, t, h, h, p, t.processes[p]);
    }
    var t := Step(s, Crash(p));
    assert forall q :: 0 <= q < |t.processes| && q != p ==> t.processes[q] == s.processes[q];
    assert forall l :: l in t.loaders ==> l in s.loaders;
  }

  /** The highest of what the load's successful reads found when it began. */
  function Owed(l: Loader, starter: Slot, missedStarter: bool): int {
    Max(SeenAtLeast(l.activeAtStart, l.missedActive),
        Max(SeenAtLeast(l.previousAtStart, l.missedPrevious), SeenAtLeast(Seq(starter), missedStarter)))
  }

  /** What an unlocked load returns: never equivocation, never below its start. */
  lemma {:induction false} LoadOutcomeIsHighEnough(s: State, h: set<Identity>, l: Loader, missedStarter: bool)
    requires SlotsInv(s, h) && LoaderInv(s, h, l) && l.active.Some? && l.previous.Some?
    ensures LoadOutcome(s, l, missedStarter).Loaded?
    ensures Known(LoadOutcome(s, l, missedStarter).selected, h)
    ensures Seq(LoadOutcome(s, l, missedStarter).selected) >= Owed(l, s.starter, missedStarter)
  {
  }

  lemma {:induction false} LoaderMoves(s: State, h: set<Identity>, l: nat, loader: Loader)
    requires Inv(s, h) && l < |s.loaders| && LoaderInv(s, h, loader)
    ensures Inv(s.(loaders := s.loaders[l := loader]), h)
  {
    var t := s.(loaders := s.loaders[l := loader]);
    assert forall k :: k in t.loaders ==> k == loader || k in s.loaders;
    assert forall k :: LoaderInv(s, h, k) ==> LoaderInv(t, h, k);
  }

  lemma {:induction false} AcquireKeepsInv(s: State, h: set<Identity>, p: nat, candidate: Knowledge)
    requires Inv(s, h) && p < |s.processes|
    ensures Inv(Step(s, Acquire(p, candidate)), h)
  {
    var t := Step(s, Acquire(p, candidate));
    LoadersSurvive(s, t, h, h);
    assert forall q :: 0 <= q < |t.processes| && q != p ==> t.processes[q] == s.processes[q];
  }

  lemma {:induction false} LoadBeginKeepsInv(s: State, h: set<Identity>, p: nat)
    requires Inv(s, h) && p < |s.processes|
    ensures Inv(Step(s, LoadBegin(p)), h)
  {
    var t := Step(s, LoadBegin(p));
    LoadersSurvive(s, t, h, h);
  }

  lemma {:induction false} FinishedKeepsInv(s: State, h: set<Identity>, l: nat, p: nat, memory: Slot)
    requires Inv(s, h) && l < |s.loaders| && p < |s.processes| && Known(memory, h)
    ensures Inv(Put(DropLoader(s, l), p, s.processes[p].(memory := memory)), h)
  {
    var t := Put(DropLoader(s, l), p, s.processes[p].(memory := memory));
    LoadersSurvive(s, t, h, h);
    assert forall k :: k in t.loaders ==> k in s.loaders;
    assert forall q :: 0 <= q < |t.processes| ==> t.processes[q].pc == s.processes[q].pc && Known(t.processes[q].memory, h);
  }

  lemma {:induction false} LoadFinishKeepsInv(s: State, h: set<Identity>, l: nat, missed: bool)
    requires Inv(s, h) && l < |s.loaders|
    ensures Inv(OnLoadFinish(s, l, missed), h)
  {
    var loader := s.loaders[l];
    assert LoaderInv(s, h, loader);
    if loader.active.Some? && loader.previous.Some? && loader.process < |s.processes| {
      LoadOutcomeIsHighEnough(s, h, loader, missed);
      var p := loader.process;
      var was := s.processes[p].memory;
      assert s.processes[p].(memory := was) == s.processes[p];
      assert s.processes[p := s.processes[p]] == s.processes;
      var kept := Retain(was, LoadOutcome(s, loader, missed).selected);
      FinishedKeepsInv(s, h, l, p, if kept.Some? then kept.value else was);
    }
  }

  lemma {:induction false} LoaderStepKeepsInv(s: State, h: set<Identity>, e: Event, l: nat)
    requires Inv(s, h) && l < |s.loaders|
    ensures Inv(LoaderStep(s, e, l), h)
  {
    var loader := s.loaders[l];
    assert LoaderInv(s, h, loader);
    match e {
      case LoadActive(_, missed) =>
        LoaderMoves(s, h, l, ReadActive(s, loader, missed));
      case LoadPrevious(_, missed) =>
        LoaderMoves(s, h, l, ReadPrevious(s, loader, missed));
      case LoadFinish(_, missed) =>
        LoadFinishKeepsInv(s, h, l, missed);
      case _ =>
    }
  }

  lemma {:induction false} OnlyWritesChangeSlots(s: State, e: Event)
    requires !e.WritePrevious? && !e.WriteActive?
    ensures var t := Step(s, e); t.active == s.active && t.previous == s.previous && t.starter == s.starter
  {
  }

  lemma {:induction false} StepRises(s: State, e: Event, h: set<Identity>)
    requires Inv(s, h)
    ensures Rises(s, Step(s, e))
  {
    match e {
      case WritePrevious(p, effect, error) => if p < |s.processes| { WritePreviousKeepsInv(s, h, p, effect, error); }
      case WriteActive(p, effect) => if p < |s.processes| { WriteActiveKeepsInv(s, h, p, effect); }
      case _ => OnlyWritesChangeSlots(s, e);
    }
  }

  lemma {:induction false} StepKeepsInv(s: State, e: Event, h: set<Identity>)
    requires Inv(s, h) && Sighted(s, e)
    ensures Inv(Step(s, e), History(s, e, h))
  {
    match e {
      case Acquire(p, candidate) => if p < |s.processes| { AcquireKeepsInv(s, h, p, candidate); }
      case CommitLoad(p, m) => if p < |s.processes| { CommitLoadKeepsInv(s, h, p, m); }
      case WritePrevious(p, effect, error) => if p < |s.processes| { WritePreviousKeepsInv(s, h, p, effect, error); }
      case WriteActive(p, effect) => if p < |s.processes| { WriteActiveKeepsInv(s, h, p, effect); }
      case Confirm(p) => if p < |s.processes| { ConfirmKeepsInv(s, h, p); }
      case Abort(p) => if p < |s.processes| { LeaveKeepsInv(s, h, p); }
      case Crash(p) => if p < |s.processes| { LeaveKeepsInv(s, h, p); }
      case LoadBegin(p) => if p < |s.processes| { LoadBeginKeepsInv(s, h, p); }
      case LoadActive(l, _) => if l < |s.loaders| { LoaderStepKeepsInv(s, h, e, l); }
      case LoadPrevious(l, _) => if l < |s.loaders| { LoaderStepKeepsInv(s, h, e, l); }
      case LoadFinish(l, _) => if l < |s.loaders| { LoaderStepKeepsInv(s, h, e, l); }
    }
  }

  /** A commit returns at least the highest durable sequence, which no memory exceeds. */
  predicate MemoryAtLeast(s: State, t: State, q: nat)
    requires q < |s.processes|
  {
    |t.processes| == |s.processes| && Seq(t.processes[q].memory) >= Seq(s.processes[q].memory)
  }

  lemma {:induction false} ReturnRises(s: State, h: set<Identity>, p: nat, q: nat, m: Misses)
    requires Inv(s, h) && q < |s.processes| && SeesHighest(s, m)
    ensures MemoryAtLeast(s, Step(s, CommitLoad(p, m)), q)
  {
    assert Seq(s.processes[q].memory) <= Highest(s) by {
      assert Known(s.processes[q].memory, h);
    }
    if p < |s.processes| && s.processes[p].pc.Locked? {
      var t := OnCommitLoad(s, p, m);
      var proc := AfterLoad(s.processes[p], Visible(s, m).selected);
      assert t.processes == s.processes[p := proc];
    }
  }

  lemma {:induction false} ConfirmRises(s: State, h: set<Identity>, p: nat, q: nat)
    requires Inv(s, h) && q < |s.processes|
    ensures MemoryAtLeast(s, Step(s, Confirm(p)), q)
  {
    assert Known(s.processes[q].memory, h);
  }

  lemma {:induction false} LoadFinishRises(s: State, l: nat, q: nat, missed: bool)
    requires q < |s.processes|
    ensures MemoryAtLeast(s, Step(s, LoadFinish(l, missed)), q)
  {
  }

  lemma {:induction false} OthersKeepMemory(s: State, e: Event, p: nat)
    requires p < |s.processes| && e != Crash(p) && !e.CommitLoad? && !e.Confirm? && !e.LoadFinish?
    ensures MemoryAtLeast(s, Step(s, e), p)
  {
  }

  /** A process's memory only ever rises, except that a crash empties it. */
  lemma {:induction false} MemoryRises(s: State, e: Event, h: set<Identity>, p: nat)
    requires Inv(s, h) && Sighted(s, e) && p < |s.processes| && e != Crash(p)
    ensures MemoryAtLeast(s, Step(s, e), p)
  {
    match e {
      case CommitLoad(q, m) => ReturnRises(s, h, q, p, m);
      case Confirm(q) => ConfirmRises(s, h, q, p);
      case LoadFinish(l, missed) => LoadFinishRises(s, l, p, missed);
      case _ => OthersKeepMemory(s, e, p);
    }
  }

  // ---------- Whole runs ----------

  /** Before any commit: no load or commit in flight, and nothing durable or remembered disagrees. */
  ghost predicate Initial(s: State) {
    && s.lock == None && s.loaders == []
    && Select(s.active, s.previous, s.starter).Loaded?
    && forall p :: 0 <= p < |s.processes| ==> s.processes[p] == Process(None, Idle)
  }

  ghost function Identities(s: State): set<Identity> {
    set k <- [s.active, s.previous, s.starter] | k.Some? :: k.value.identity
  }

  lemma {:induction false} InitialInv(s: State)
    requires Initial(s)
    ensures Inv(s, Identities(s))
  {
    var ks := [s.active, s.previous, s.starter];
    assert s.active == ks[0] && s.previous == ks[1] && s.starter == ks[2];
    forall a, b | a in Identities(s) && b in Identities(s) && a.sequence == b.sequence
      ensures a == b
    {
      var i :| i in ks && i.Some? && i.value.identity == a;
      var j :| j in ks && j.Some? && j.value.identity == b;
    }
  }

  /** Everything a slot has held by the end of a run. */
  ghost function HistoryAfter(s: State, es: seq<Event>, h: set<Identity>): set<Identity>
    decreases |es|
  {
    if es == [] then h else HistoryAfter(Step(s, es[0]), es[1..], History(s, es[0], h))
  }

  /** Every commit of the run sees the highest record of its moment. */
  ghost predicate AllSighted(s: State, es: seq<Event>)
    decreases |es|
  {
    es == [] || (Sighted(s, es[0]) && AllSighted(Step(s, es[0]), es[1..]))
  }

  lemma {:induction false} SightedParts(s: State, a: seq<Event>, b: seq<Event>)
    requires AllSighted(s, a + b)
    ensures AllSighted(s, a) && AllSighted(Run(s, a), b)
    decreases |a|
  {
    if a == [] {
      assert a + b == b;
    } else {
      assert (a + b)[1..] == a[1..] + b;
      SightedParts(Step(s, a[0]), a[1..], b);
    }
  }

  lemma {:induction false} RunKeepsInv(s: State, es: seq<Event>, h: set<Identity>)
    requires Inv(s, h) && AllSighted(s, es)
    ensures Inv(Run(s, es), HistoryAfter(s, es, h)) && h <= HistoryAfter(s, es, h)
    ensures Rises(s, Run(s, es))
    decreases |es|
  {
    if es != [] {
      StepKeepsInv(s, es[0], h);
      StepRises(s, es[0], h);
      RunKeepsInv(Step(s, es[0]), es[1..], History(s, es[0], h));
    }
  }

  lemma {:induction false} RunConcat(s: State, a: seq<Event>, b: seq<Event>)
    ensures Run(s, a + b) == Run(Run(s, a), b)
    decreases |a|
  {
    if a == [] {
      assert a + b == b;
    } else {
      assert (a + b)[1..] == a[1..] + b;
      RunConcat(Step(s, a[0]), a[1..], b);
    }
  }

  /** The highest durable sequence never drops, wherever commits fail or processes crash. */
  lemma {:induction false} HighestNeverDrops(s: State, before: seq<Event>, after: seq<Event>)
    requires Initial(s) && AllSighted(s, before + after)
    ensures Highest(Run(s, before)) <= Highest(Run(s, before + after))
  {
    InitialInv(s);
    SightedParts(s, before, after);
    RunKeepsInv(s, before, Identities(s));
    RunKeepsInv(Run(s, before), after, HistoryAfter(s, before, Identities(s)));
    RunConcat(s, before, after);
  }

  /** A record found in a slot at one moment and one found at another are the same whenever their sequences are. */
  lemma {:induction false} OneIdentityPerSequence(s: State, before: seq<Event>, after: seq<Event>, a: Slot, b: Slot)
    requires Initial(s) && AllSighted(s, before + after)
    requires var t := Run(s, before); a in {t.active, t.previous, t.starter}
    requires var t := Run(s, before + after); b in {t.active, t.previous, t.starter}
    ensures !Clash(a, b)
  {
    InitialInv(s);
    SightedParts(s, before, after);
    RunKeepsInv(s, before, Identities(s));
    RunKeepsInv(Run(s, before), after, HistoryAfter(s, before, Identities(s)));
    RunConcat(s, before, after);
  }

  /** What process p remembers never drops between two moments with no crash of p between them. */
  lemma {:induction false} MemoryNeverDrops(s: State, es: seq<Event>, h: set<Identity>, p: nat)
    requires Inv(s, h) && AllSighted(s, es) && p < |s.processes| && Crash(p) !in es
    ensures |Run(s, es).processes| == |s.processes|
    ensures Seq(Run(s, es).processes[p].memory) >= Seq(s.processes[p].memory)
    decreases |es|
  {
    if es != [] {
      MemoryRises(s, es[0], h, p);
      StepKeepsInv(s, es[0], h);
      MemoryNeverDrops(Step(s, es[0]), es[1..], History(s, es[0], h), p);
    }
  }

  lemma {:induction false} RememberedNeverDrops(s: State, before: seq<Event>, after: seq<Event>, p: nat)
    requires Initial(s) && AllSighted(s, before + after) && Crash(p) !in after && p < |Run(s, before).processes|
    ensures |Run(s, before + after).processes| == |Run(s, before).processes|
    ensures Seq(Run(s, before + after).processes[p].memory) >= Seq(Run(s, before).processes[p].memory)
  {
    InitialInv(s);
    SightedParts(s, before, after);
    RunKeepsInv(s, before, Identities(s));
    RunConcat(s, before, after);
    MemoryNeverDrops(Run(s, before), after, HistoryAfter(s, before, Identities(s)), p);
  }

  /** Every load in flight began at some moment of the run, and its start fields are that moment's slots. */
  lemma {:induction false} LoadsBegin(s: State, es: seq<Event>, l: Loader)
    requires Initial(s) && l in Run(s, es).loaders
    ensures exists k :: 0 <= k < |es| && es[k] == LoadBegin(l.process)
                        && Seq(Run(s, es[..k]).active) == l.activeAtStart
                        && Seq(Run(s, es[..k]).previous) == l.previousAtStart
    decreases |es|
  {
    if es != [] {
      var n := |es| - 1;
      var t := Run(s, es[..n]);
      assert es == es[..n] + [es[n]];
      RunConcat(s, es[..n], [es[n]]);
      var before := LoaderBefore(t, es[n], l);
      if before.Some? {
        LoadsBegin(s, es[..n], before.value);
        var k :| 0 <= k < n && es[..n][k] == LoadBegin(l.process)
          && Seq(Run(s, es[..n][..k]).active) == l.activeAtStart
          && Seq(Run(s, es[..n][..k]).previous) == l.previousAtStart;
        assert es[..n][..k] == es[..k];
      }
    }
  }

  /** The same load one step earlier, unless this step began it. */
  lemma {:induction false} LoaderBefore(s: State, e: Event, l: Loader) returns (before: Option<Loader>)
    requires l in Step(s, e).loaders
    ensures before.Some? ==> (
      && before.value in s.loaders && before.value.process == l.process
      && before.value.activeAtStart == l.activeAtStart && before.value.previousAtStart == l.previousAtStart)
    ensures before.None? ==> e == LoadBegin(l.process) && l.activeAtStart == Seq(s.active) && l.previousAtStart == Seq(s.previous)
  {
    before := None;
    if l in s.loaders {
      before := Some(l);
    } else {
      match e {
        case LoadActive(i, _) => before := Some(s.loaders[i]);
        case LoadPrevious(i, _) => before := Some(s.loaders[i]);
        case _ =>
      }
    }
  }

  /**
   A load racing any commits never reports equivocation and returns at least the highest
   of what its successful reads would have found at its start: the highest there was, if
   none of them failed.
   */
  lemma {:induction false} LoadNeverStepsBack(s: State, es: seq<Event>, l: Loader, missedStarter: bool) returns (k: nat)
    requires Initial(s) && AllSighted(s, es)
    requires l in Run(s, es).loaders && l.active.Some? && l.previous.Some?
    ensures k < |es| && es[k] == LoadBegin(l.process)
    ensures LoadOutcome(Run(s, es), l, missedStarter).Loaded?
    ensures var begin := Run(s, es[..k]);
            var outcome := Seq(LoadOutcome(Run(s, es), l, missedStarter).selected);
            && (!l.missedActive ==> outcome >= Seq(begin.active))
            && (!l.missedPrevious ==> outcome >= Seq(begin.previous))
            && (!missedStarter ==> outcome >= Seq(begin.starter))
            && (!l.missedActive && !l.missedPrevious && !missedStarter ==> outcome >= Highest(begin))
  {
    LoadsBegin(s, es, l);
    k :| 0 <= k < |es| && es[k] == LoadBegin(l.process)
      && Seq(Run(s, es[..k]).active) == l.activeAtStart
      && Seq(Run(s, es[..k]).previous) == l.previousAtStart;
    StarterStays(s, es);
    StarterStays(s, es[..k]);
    LoadInFlight(s, es, l, missedStarter);
  }

  lemma {:induction false} StarterStays(s: State, es: seq<Event>)
    ensures Run(s, es).starter == s.starter
    decreases |es|
  {
    if es != [] {
      StarterStays(Step(s, es[0]), es[1..]);
    }
  }

  lemma {:induction false} LoadInFlight(s: State, es: seq<Event>, l: Loader, missedStarter: bool)
    requires Initial(s) && AllSighted(s, es)
    requires l in Run(s, es).loaders && l.active.Some? && l.previous.Some?
    ensures var t := Run(s, es);
            LoadOutcome(t, l, missedStarter).Loaded? && Seq(LoadOutcome(t, l, missedStarter).selected) >= Owed(l, t.starter, missedStarter)
  {
    InitialInv(s);
    RunKeepsInv(s, es, Identities(s));
    LoadOutcomeIsHighEnough(Run(s, es), HistoryAfter(s, es, Identities(s)), l, missedStarter);
  }

  // ---------- Where the read under the lock must see the highest ----------

  /** A commit whose own read misses the active slot once replaces a higher record by a lower one. */
  lemma {:induction false} MissedReadLosesHighest(high: Knowledge, low: Knowledge)
    requires low.identity.sequence < high.identity.sequence
    ensures exists s, es :: Initial(s) && !AllSighted(s, es) && Highest(Run(s, es)) < Highest(s)
  {
    var s := State(Some(high), None, None, None, [Process(None, Idle)], []);
    var missed := CommitLoad(0, Misses(true, false, false));
    var es := [Acquire(0, low), missed, WritePrevious(0, true, false), WriteActive(0, true)];
    var s1 := Step(s, es[0]);
    var s2 := Step(s1, missed);
    var s3 := Step(s2, es[2]);
    var s4 := Step(s3, es[3]);
    assert Run(s4, []) == s4;
    assert es[3..][1..] == [] && es[2..][1..] == es[3..] && es[1..][1..] == es[2..];
    assert Run(s3, es[3..]) == s4;
    assert Run(s2, es[2..]) == s4;
    assert Run(s1, es[1..]) == s4;
    assert Run(s, es) == s4;
    assert !Sighted(s1, missed);
    assert !AllSighted(s1, es[1..]);
    assert Highest(s4) == low.identity.sequence;
  }
}
