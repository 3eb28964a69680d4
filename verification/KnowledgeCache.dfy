/**
 The knowledge cache and the updater as objects: the selection loop over the
 records, the two-write commit against the durable slots, and the memory fallback.
 Each is proved against the shared-slot machine of KnowledgeRace.
 */
module KnowledgeCache {
  import opened Wrappers
  import R = KnowledgeRace

  // ---------- Selecting a record ----------

  /** Two of the first n records carry one sequence and different identities. */
  ghost predicate Disagree(records: seq<R.Slot>, n: nat)
    requires n <= |records|
  {
    exists i, j :: 0 <= i < j < n && R.Clash(records[i], records[j])
  }

  /** The first of the highest among the first n records. */
  ghost predicate FirstHighest(records: seq<R.Slot>, n: nat, selected: R.Slot)
    requires n <= |records|
  {
    && (selected.None? ==> forall i :: 0 <= i < n ==> records[i].None?)
    && (selected.Some? ==> exists i :: 0 <= i < n && records[i] == selected
                                       && (forall j :: 0 <= j < n ==> R.Seq(records[j]) <= R.Seq(selected))
                                       && (forall j :: 0 <= j < i ==> R.Seq(records[j]) < R.Seq(selected)))
  }

  /** The map holds the identity of each sequence among the first n records, and nothing else. */
  ghost predicate Indexes(identities: map<nat, R.Identity>, records: seq<R.Slot>, n: nat)
    requires n <= |records|
  {
    && (forall i :: 0 <= i < n && records[i].Some? ==>
          records[i].value.identity.sequence in identities && identities[records[i].value.identity.sequence] == records[i].value.identity)
    && (forall q :: q in identities ==>
          exists i :: 0 <= i < n && records[i].Some? && records[i].value.identity == identities[q] && identities[q].sequence == q)
  }

  lemma {:induction false} ClashFound(identities: map<nat, R.Identity>, records: seq<R.Slot>, n: nat)
    requires n < |records| && Indexes(identities, records, n) && records[n].Some?
    requires records[n].value.identity.sequence in identities
    requires identities[records[n].value.identity.sequence] != records[n].value.identity
    ensures Disagree(records, |records|)
  {
    var i :| 0 <= i < n && records[i].Some? && records[i].value.identity == identities[records[n].value.identity.sequence];
    assert R.Clash(records[i], records[n]);
  }

  lemma {:induction false} IndexGrows(identities: map<nat, R.Identity>, records: seq<R.Slot>, n: nat)
    requires n < |records| && Indexes(identities, records, n) && !Disagree(records, n) && records[n].Some?
    requires var identity := records[n].value.identity;
             identity.sequence in identities ==> identities[identity.sequence] == identity
    ensures Indexes(identities[records[n].value.identity.sequence := records[n].value.identity], records, n + 1)
    ensures !Disagree(records, n + 1)
  {
    assert forall i :: 0 <= i < n ==> !R.Clash(records[i], records[n]);
  }

  lemma {:induction false} EmptySlotAddsNothing(identities: map<nat, R.Identity>, records: seq<R.Slot>, n: nat)
    requires n < |records| && Indexes(identities, records, n) && !Disagree(records, n) && records[n].None?
    ensures Indexes(identities, records, n + 1) && !Disagree(records, n + 1)
  {
  }

  lemma {:induction false} HighestGrows(records: seq<R.Slot>, n: nat, selected: R.Slot)
    requires n < |records| && FirstHighest(records, n, selected)
    ensures FirstHighest(records, n + 1, if R.Seq(records[n]) > R.Seq(selected) then records[n] else selected)
  {
  }

  method SelectHighest(records: seq<R.Slot>) returns (r: R.LoadResult)
    ensures r.Equivocation? <==> Disagree(records, |records|)
    ensures r.Loaded? ==> FirstHighest(records, |records|, r.selected)
  {
    var selected: R.Slot := None;
    var identities: map<nat, R.Identity> := map[];
    for n := 0 to |records|
      invariant !Disagree(records, n)
      invariant FirstHighest(records, n, selected)
      invariant Indexes(identities, records, n)
    {
      var candidate := records[n];
      HighestGrows(records, n, selected);
      if candidate.None? {
        EmptySlotAddsNothing(identities, records, n);
      } else {
        var identity := candidate.value.identity;
        if identity.sequence in identities && identities[identity.sequence] != identity {
          ClashFound(identities, records, n);
          return R.Equivocation;
        }
        IndexGrows(identities, records, n);
        identities := identities[identity.sequence := identity];
        if selected.None? || identity.sequence > selected.value.identity.sequence {
          selected := candidate;
        }
      }
    }
    r := R.Loaded(selected);
  }

  /** Over three records the two conditions determine the selection. */
  lemma {:induction false} SelectionIsUnique(active: R.Slot, previous: R.Slot, starter: R.Slot, r: R.LoadResult)
    requires var records := [active, previous, starter];
             (r.Equivocation? <==> Disagree(records, 3)) && (r.Loaded? ==> FirstHighest(records, 3, r.selected))
    ensures r == R.Select(active, previous, starter)
  {
    var records := [active, previous, starter];
    assert records[0] == active && records[1] == previous && records[2] == starter;
    if R.Clash(active, previous) || R.Clash(active, starter) || R.Clash(previous, starter) {
      assert Disagree(records, 3);
    } else if r.Loaded? && r.selected.Some? {
      var i :| 0 <= i < 3 && records[i] == r.selected
        && (forall j :: 0 <= j < 3 ==> R.Seq(records[j]) <= R.Seq(r.selected))
        && (forall j :: 0 <= j < i ==> R.Seq(records[j]) < R.Seq(r.selected));
      assert R.Seq(records[0]) <= R.Seq(r.selected);
      assert R.Seq(records[1]) <= R.Seq(r.selected);
      assert R.Seq(records[2]) <= R.Seq(r.selected);
    }
  }

  // ---------- The commit ----------

  /** What the file system and the cancellation signal do during one commit. */
  datatype Io = Io(
    aborted: bool,
    misses: R.Misses,
    previousEffect: bool,
    previousError: bool,
    activeEffect: bool,
    activeError: bool,
    readBackFails: bool)

  /** One process, no lock held, nothing remembered. */
  function Solo(active: R.Slot, previous: R.Slot, starter: R.Slot): R.State {
    R.State(active, previous, starter, None, [R.Process(None, R.Idle)], [])
  }

  /** The events of one undisturbed commit; those after its return change nothing. */
  function Script(candidate: R.Knowledge, io: Io): seq<R.Event> {
    if io.aborted then [R.Acquire(0, candidate), R.Abort(0)] else
    [ R.Acquire(0, candidate),
      R.CommitLoad(0, io.misses),
      R.WritePrevious(0, io.previousEffect, io.previousError),
      R.WriteActive(0, io.activeEffect || !io.activeError),
      if io.readBackFails then R.Abort(0) else R.Confirm(0) ]
  }

  /** What one commit leaves in the slots and hands back; None is a thrown error. */
  datatype Outcome = Outcome(active: R.Slot, previous: R.Slot, result: R.Slot)

  function CommitOutcome(active: R.Slot, previous: R.Slot, starter: R.Slot, candidate: R.Knowledge, io: Io): Outcome {
    var loaded := R.Visible(Solo(active, previous, starter), io.misses);
    if io.aborted || loaded.Equivocation? then Outcome(active, previous, None)
    else if R.Seq(loaded.selected) >= candidate.identity.sequence then
      Outcome(active, previous, if R.Clash(loaded.selected, Some(candidate)) then None else loaded.selected)
    else
      var writes := loaded.selected.Some?;
      var previous' := if writes && (io.previousEffect || !io.previousError) then loaded.selected else previous;
      if writes && io.previousError then Outcome(active, previous', None) else
      var active' := if io.activeEffect || !io.activeError then Some(candidate) else active;
      var confirmed := !io.readBackFails && active'.Some? && active'.value.identity == candidate.identity;
      Outcome(active', previous', if confirmed then active' else None)
  }

  class Cache {
    var active: R.Slot
    var previous: R.Slot
    const starter: R.Slot

    constructor (starter: R.Slot)
      ensures active == None && previous == None && this.starter == starter
    {
      this.active, this.previous, this.starter := None, None, starter;
    }

    /** A read that fails makes its slot look empty. */
    method Load(misses: R.Misses) returns (r: R.LoadResult)
      ensures r == R.Visible(Solo(active, previous, starter), misses)
    {
      var a, b, c := R.Masked(active, misses.active), R.Masked(previous, misses.previous), R.Masked(starter, misses.starter);
      r := SelectHighest([a, b, c]);
      SelectionIsUnique(a, b, c, r);
    }

    /** A replace that reports success took effect; one that reports an error may have. */
    method WriteActive(content: R.Knowledge, effect: bool, error: bool)
      modifies this`active
      ensures active == if effect || !error then Some(content) else old(active)
    {
      if effect || !error {
        active := Some(content);
      }
    }

    method WritePrevious(content: R.Knowledge, effect: bool, error: bool)
      modifies this`previous
      ensures previous == if effect || !error then Some(content) else old(previous)
    {
      if effect || !error {
        previous := Some(content);
      }
    }

    method Commit(candidate: R.Knowledge, io: Io) returns (r: R.Slot)
      modifies this
      ensures Outcome(active, previous, r) == CommitOutcome(old(active), old(previous), starter, candidate, io)
    {
      if io.aborted {
        return None;
      }
      var loaded := Load(io.misses);
      if loaded.Equivocation? {
        return None;
      }
      var current := loaded.selected;
      if current.Some? {
        if current.value.identity.sequence > candidate.identity.sequence {
          return current;
        }
        if current.value.identity.sequence == candidate.identity.sequence {
          if current.value.identity != candidate.identity {
            return None;
          }
          return current;
        }
        WritePrevious(current.value, io.previousEffect, io.previousError);
        if io.previousError {
          return None;
        }
      }
      WriteActive(candidate, io.activeEffect, io.activeError);
      var observed := if io.readBackFails then None else active;
      if observed.Some? && observed.value.identity == candidate.identity {
        return observed;
      }
      return None;
    }
  }

  lemma {:induction false} RunTwo(s: R.State, es: seq<R.Event>)
    requires |es| == 2
    ensures R.Run(s, es) == R.Step(R.Step(s, es[0]), es[1])
  {
    assert es[1..][1..] == [];
    assert R.Run(R.Step(R.Step(s, es[0]), es[1]), es[1..][1..]) == R.Step(R.Step(s, es[0]), es[1]);
  }

  lemma {:induction false} RunFive(s: R.State, es: seq<R.Event>)
    requires |es| == 5
    ensures R.Run(s, es) == R.Step(R.Step(R.Step(R.Step(R.Step(s, es[0]), es[1]), es[2]), es[3]), es[4])
  {
    var t := R.Step(R.Step(R.Step(s, es[0]), es[1]), es[2]);
    assert R.Run(s, es) == R.Run(R.Step(s, es[0]), es[1..]);
    assert es[1..][0] == es[1] && es[1..][1..] == es[2..];
    assert es[2..][0] == es[2] && es[2..][1..] == es[3..];
    assert R.Run(R.Step(s, es[0]), es[1..]) == R.Run(R.Step(R.Step(s, es[0]), es[1]), es[2..]);
    RunTwo(t, es[3..]);
  }

  /** A commit is the machine's five steps run without interruption. */
  lemma {:induction false} CommitIsARun(active: R.Slot, previous: R.Slot, starter: R.Slot, candidate: R.Knowledge, io: Io)
    ensures var t := R.Run(Solo(active, previous, starter), Script(candidate, io));
            && t.lock == None && t.starter == starter && |t.processes| == 1 && t.processes[0].pc == R.Idle
            && CommitOutcome(active, previous, starter, candidate, io) == Outcome(t.active, t.previous, t.processes[0].memory)
  {
    var s := Solo(active, previous, starter);
    var es := Script(candidate, io);
    if io.aborted {
      RunTwo(s, es);
    } else {
      RunFive(s, es);
      var s1 := R.Step(s, es[0]);
      assert s1 == s.(lock := Some(0), processes := [R.Process(None, R.Locked(candidate))]);
      LoadedStep(s1, candidate, io.misses);
      var s2 := R.Step(s1, es[1]);
      if s2.lock == None {
        RestStays(s2, candidate, io);
        assert R.Visible(s1, io.misses) == R.Visible(s, io.misses);
      } else {
        WriteSteps(s2, candidate, R.Visible(s, io.misses).selected, io);
      }
    }
  }

  predicate Alone(s: R.State) {
    |s.processes| == 1 && s.processes[0].memory == None
  }

  lemma {:induction false} IdleStays(s: R.State, e: R.Event)
    requires |s.processes| == 1 && s.processes[0].pc == R.Idle
    requires e.WritePrevious? || e.WriteActive? || e.Confirm? || e.Abort?
    ensures R.Step(s, e) == s
  {
  }

  /** Once it has returned, the rest of the script changes nothing. */
  lemma {:induction false} RestStays(s: R.State, candidate: R.Knowledge, io: Io)
    requires |s.processes| == 1 && s.processes[0].pc == R.Idle && !io.aborted
    ensures var es := Script(candidate, io); R.Step(R.Step(R.Step(s, es[2]), es[3]), es[4]) == s
  {
    var es := Script(candidate, io);
    IdleStays(s, es[2]);
    IdleStays(s, es[3]);
    IdleStays(s, es[4]);
  }

  lemma {:induction false} LoadedStep(s: R.State, candidate: R.Knowledge, misses: R.Misses)
    requires Alone(s) && s.processes[0].pc == R.Locked(candidate) && s.lock == Some(0)
    ensures var loaded := R.Visible(s, misses);
            var t := R.Step(s, R.CommitLoad(0, misses));
            if loaded.Equivocation? then t == s.(lock := None, processes := [R.Process(None, R.Idle)])
            else if R.Seq(loaded.selected) >= candidate.identity.sequence then
              t == s.(lock := None, processes := [R.Process(if R.Clash(loaded.selected, Some(candidate)) then None else loaded.selected, R.Idle)])
            else t == s.(processes := [R.Process(None, R.Decided(candidate, loaded.selected))])
  {
  }

  lemma {:induction false} WriteSteps(s: R.State, candidate: R.Knowledge, current: R.Slot, io: Io)
    requires Alone(s) && s.processes[0].pc == R.Decided(candidate, current) && s.lock == Some(0)
    requires R.Visible(s, io.misses) == R.Loaded(current) && R.Seq(current) < candidate.identity.sequence
    requires !io.aborted
    ensures var es := Script(candidate, io);
            var t := R.Step(R.Step(R.Step(s, es[2]), es[3]), es[4]);
            && t.lock == None && t.starter == s.starter && |t.processes| == 1 && t.processes[0].pc == R.Idle
            && CommitOutcome(s.active, s.previous, s.starter, candidate, io) == Outcome(t.active, t.previous, t.processes[0].memory)
  {
    var es := Script(candidate, io);
    var s3 := R.Step(s, es[2]);
    if current.Some? && io.previousError {
      IdleStays(s3, es[3]);
      IdleStays(s3, es[4]);
    } else {
      assert s3.processes == [R.Process(None, R.WrotePrevious(candidate))];
      var s4 := R.Step(s3, es[3]);
      assert s4.processes == [R.Process(None, R.WroteActive(candidate))];
    }
  }

  /**
   A commit that sees the highest record never lowers the highest durable sequence, changes
   nothing unless the candidate exceeds it, and, if it returns, returns the highest, now durable.
   */
  lemma {:induction false} CommitReturnsHighest(active: R.Slot, previous: R.Slot, starter: R.Slot, candidate: R.Knowledge, io: Io)
    requires R.SeesHighest(Solo(active, previous, starter), io.misses)
    ensures var s := Solo(active, previous, starter);
            var r := CommitOutcome(active, previous, starter, candidate, io);
            var t := Solo(r.active, r.previous, starter);
            && R.Highest(t) >= R.Highest(s)
            && (r.result.Some? ==> R.Seq(r.result) == R.Highest(t) >= candidate.identity.sequence)
            && (R.Highest(s) >= candidate.identity.sequence ==> r.active == active && r.previous == previous)
  {
  }

  /**
   What a commit does with the two slots, whatever fails: it writes nothing unless it loaded a
   record below its candidate or none, the candidate goes nowhere but the active slot, and it
   gets there only after the record it displaces, if there is one, is in the previous slot.
   */
  lemma {:induction false} CommitSavesFirst(active: R.Slot, previous: R.Slot, starter: R.Slot, candidate: R.Knowledge, io: Io)
    ensures var seen := R.Visible(Solo(active, previous, starter), io.misses);
            var r := CommitOutcome(active, previous, starter, candidate, io);
            && (r.active != active ==> r.active == Some(candidate) && seen.Loaded? && (seen.selected.Some? ==> r.previous == seen.selected))
            && (r.previous != previous ==> seen.Loaded? && seen.selected.Some? && r.previous == seen.selected)
            && (r.active != active || r.previous != previous ==>
                  !io.aborted && (seen.selected.Some? ==> seen.selected.value.identity.sequence < candidate.identity.sequence))
  {
  }

  /** Exactly when a commit returns a record, and which one: the loaded one if it is as high, or else the candidate, read back. */
  lemma {:induction false} CommitReturnsIff(active: R.Slot, previous: R.Slot, starter: R.Slot, candidate: R.Knowledge, io: Io)
    ensures var seen := R.Visible(Solo(active, previous, starter), io.misses);
            var r := CommitOutcome(active, previous, starter, candidate, io);
            if io.aborted || seen.Equivocation? then r.result == None
            else if seen.selected.Some? && seen.selected.value.identity.sequence >= candidate.identity.sequence then
              r.result == if || seen.selected.value.identity.sequence > candidate.identity.sequence
                             || seen.selected.value.identity == candidate.identity
                          then seen.selected else None
            else if (seen.selected.Some? && io.previousError) || io.readBackFails then r.result == None
            else if io.activeEffect || !io.activeError then r.active == Some(candidate) && r.result == Some(candidate)
            else r.active == active && (r.result.Some? ==> r.result == active && r.result.value.identity == candidate.identity)
  {
  }

  /** With nothing failing, a candidate above every record is stored and returned, and the record it displaces is kept. */
  lemma {:induction false} CommitSucceeds(active: R.Slot, previous: R.Slot, starter: R.Slot, candidate: R.Knowledge)
    requires R.Select(active, previous, starter).Loaded? && R.Highest(Solo(active, previous, starter)) < candidate.identity.sequence
    ensures var seen := R.Select(active, previous, starter).selected;
            CommitOutcome(active, previous, starter, candidate, Io(false, R.Misses(false, false, false), true, false, true, false, false))
            == Outcome(Some(candidate), if seen.Some? then seen else previous, Some(candidate))
  {
  }

  // ---------- Commits whose own reads fail ----------

  /** There is a record to save first. */
  predicate SavesFirst(seen: R.LoadResult) {
    seen.Loaded? && seen.selected.Some?
  }

  /** Every write there is takes effect, the last one even if it reports an error. */
  predicate BothTakeEffect(seen: R.LoadResult, io: Io) {
    !io.aborted && !(SavesFirst(seen) && io.previousError) && (io.activeEffect || !io.activeError)
  }

  /** The first write takes effect and the second one is not reached or does not. */
  predicate StopsBetween(seen: R.LoadResult, io: Io) {
    !io.aborted && if SavesFirst(seen) && io.previousError then io.previousEffect else io.activeError && !io.activeEffect
  }

  /**
   With reads failing at will and both writes taking effect, a commit lowers the highest
   durable sequence if and only if what it sees is below its candidate, the candidate is
   below the highest, and neither the starter nor a previous slot that is left alone has it.
   */
  lemma {:induction false} CommitDropsIff(active: R.Slot, previous: R.Slot, starter: R.Slot, candidate: R.Knowledge, io: Io)
    requires R.Select(active, previous, starter).Loaded?
    requires BothTakeEffect(R.Visible(Solo(active, previous, starter), io.misses), io)
    ensures var s := Solo(active, previous, starter);
            var seen := R.Visible(s, io.misses).selected;
            var r := CommitOutcome(active, previous, starter, candidate, io);
            R.Highest(Solo(r.active, r.previous, starter)) < R.Highest(s) <==>
              && R.Seq(seen) < candidate.identity.sequence < R.Highest(s)
              && R.Seq(starter) < R.Highest(s)
              && (seen.None? ==> R.Seq(previous) < R.Highest(s))
  {
    MaskedNeverClashes(active, previous, starter, io.misses);
  }

  lemma {:induction false} MaskedNeverClashes(active: R.Slot, previous: R.Slot, starter: R.Slot, m: R.Misses)
    requires R.Select(active, previous, starter).Loaded?
    ensures R.Visible(Solo(active, previous, starter), m).Loaded?
  {
  }

  /**
   If it stops between the two writes, because the first one took effect and reported an error or
   the second one failed, it has lowered it if and only if the highest was in the previous slot
   alone and unseen.
   */
  lemma {:induction false} FirstWriteDropsIff(active: R.Slot, previous: R.Slot, starter: R.Slot, candidate: R.Knowledge, io: Io)
    requires R.Select(active, previous, starter).Loaded?
    requires StopsBetween(R.Visible(Solo(active, previous, starter), io.misses), io)
    ensures var s := Solo(active, previous, starter);
            var seen := R.Visible(s, io.misses).selected;
            var r := CommitOutcome(active, previous, starter, candidate, io);
            R.Highest(Solo(r.active, r.previous, starter)) < R.Highest(s) <==>
              && seen.Some? && R.Seq(seen) < candidate.identity.sequence && R.Seq(seen) < R.Highest(s)
              && R.Seq(active) < R.Highest(s) && R.Seq(starter) < R.Highest(s)
  {
    MaskedNeverClashes(active, previous, starter, io.misses);
  }

  // ---------- The updater's memory ----------

  class Updates {
    var current: R.Slot

    constructor ()
      ensures current == None
    {
      current := None;
    }

    /** The memory must prove itself again before it competes with the durable record. */
    method RetainHighestVerified(durable: R.Slot, revalidates: bool) returns (ok: bool)
      modifies this
      ensures var kept := R.Retain(if revalidates then old(current) else None, durable);
              ok == kept.Some? && current == if ok then kept.value else old(current)
      ensures ok && revalidates ==> R.Seq(current) == R.Max(R.Seq(old(current)), R.Seq(durable))
      ensures var kept := if revalidates then old(current) else None;
              && (ok <==> durable.None? || kept.None? || durable.value.identity == kept.value.identity
                          || durable.value.identity.sequence != kept.value.identity.sequence)
              && (ok ==> current == if || durable.None?
                                       || (kept.Some? && kept.value.identity.sequence >= durable.value.identity.sequence)
                                    then kept else durable)
    {
      if current.Some? && !revalidates {
        current := None;
      }
      if durable.None? {
        return true;
      }
      if current.Some? && durable.value.identity.sequence == current.value.identity.sequence
         && durable.value.identity != current.value.identity {
        return false;
      }
      if current.None? || durable.value.identity.sequence > current.value.identity.sequence {
        current := durable;
      }
      ok := true;
    }
  }
}
