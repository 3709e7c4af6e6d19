/**
 The claim loop of one scheduler tick: what follows a successful link, a full instance, a transient or
 any other failure, and a commit whose acknowledgement was lost.
 */
module SchedulerTick {
  import opened Wrappers
  import opened SchedulerRows
  import opened SchedulerSteps
  import opened SchedulerInvariant
  import opened SchedulerSafety
  import opened SchedulerFencing
  import opened SchedulerStore

  /** A database failure raised while the Run is being created. */
  datatype Fault = NoFault | TransientFault | OtherFault

  /** How the commit of a linking transaction ended. */
  datatype Commit = Acknowledged | LostApplied | LostRolledBack

  datatype ClaimEnd =
    | Linked(run: Id) | CapacityDeferred | RetryDeferred | ClosedFailed | Aborted(error: SchedulerError)

  /** What the environment does around one claim; the sequences are other sessions' transactions. */
  datatype Surroundings = Surroundings(
    newRun: Id, fault: Fault, commit: Commit, before: seq<Step>, between: seq<Step>)

  /** Rows when the worker tries to link. */
  function AtLink(db: Db, s: Surroundings): Db {
    Run(db, s.before)
  }

  function Tried(db: Db, claim: OccurrenceClaim, now: int, s: Surroundings): Outcome<(Db, Id)> {
    CreateAndLink(AtLink(db, s), claim, now, s.newRun)
  }

  predicate LinkReturns(db: Db, claim: OccurrenceClaim, now: int, s: Surroundings) {
    s.fault.NoFault? && Tried(db, claim, now, s).Ok?
  }

  /** Rows when the worker comes back after a failure or a lost acknowledgement. */
  function AtSettle(db: Db, claim: OccurrenceClaim, now: int, s: Surroundings): Db {
    Run(if LinkReturns(db, claim, now, s) && s.commit.LostApplied? then Tried(db, claim, now, s).value.0 else AtLink(db, s),
        s.between)
  }

  /** A durable link as the read after a lost acknowledgement finds it. */
  predicate StoredLink(db: Db, oid: Id) {
    oid in db.occurrences && db.occurrences[oid].runId.Some? && db.occurrences[oid].state.RunCreated?
  }

  /** `fail_closed` refuses a row that is missing or linked. */
  predicate CloseRefused(db: Db, oid: Id) {
    oid !in db.occurrences || db.occurrences[oid].runId.Some?
  }

  /** `defer_setup` also refuses a row that is no longer claimed. */
  predicate PostponeRefused(db: Db, oid: Id) {
    CloseRefused(db, oid) || !db.occurrences[oid].state.Claimed?
  }

  /** Closing the row as failed, unless it is terminal already. */
  predicate Closed(db: Db, oid: Id, now: int, code: string, end: ClaimEnd, after: Db) {
    if CloseRefused(db, oid) then end == Aborted(AmbiguousOutcome) && after == db
    else
      && end == ClosedFailed
      && after == if TerminalOccurrence(db.occurrences[oid].state) then db else Put(db, oid, FailRow(db.occurrences[oid], now, code))
  }

  predicate OutOfAttempts(o: Occurrence, retryLimit: nat) {
    o.attemptCount + 1 >= Min(retryLimit, MAX_SETUP_ATTEMPTS)
  }

  /** Back to due with a delay; a transient failure counts an attempt and may be the last one. */
  predicate Postponed(db: Db, oid: Id, now: int, capacity: bool, end: ClaimEnd, after: Db) {
    if PostponeRefused(db, oid) then end == Aborted(AmbiguousOutcome) && after == db
    else
      var o := db.occurrences[oid];
      && o.slot.automationId in db.automations
      && var limit := db.automations[o.slot.automationId].retryLimit;
      && after == Put(db, oid, DeferRow(o, oid, limit, now, capacity))
      && (end == if capacity then CapacityDeferred else if OutOfAttempts(o, limit) then ClosedFailed else RetryDeferred)
      && (after.occurrences[oid].state.Due? <==> !end.ClosedFailed?)
  }

  /** What follows each outcome of a link, with the rows it leaves. */
  predicate EndFits(db: Db, claim: OccurrenceClaim, now: int, s: Surroundings, end: ClaimEnd, after: Db) {
    var oid, settle := claim.occurrenceId, AtSettle(db, claim, now, s);
    if LinkReturns(db, claim, now, s) then
      if s.commit.Acknowledged? then end == Linked(Tried(db, claim, now, s).value.1) && after == Tried(db, claim, now, s).value.0
      else if StoredLink(settle, oid) then end == Linked(settle.occurrences[oid].runId.value) && after == settle
      else Closed(settle, oid, now, "ambiguous_commit_outcome", end, after)
    else if s.fault.NoFault? && Tried(db, claim, now, s).error.RunCapacity? then Postponed(settle, oid, now, true, end, after)
    else if s.fault.TransientFault? then Postponed(settle, oid, now, false, end, after)
    else Closed(settle, oid, now, "setup_failed_safe", end, after)
  }

  /** The tick breaks off exactly when other sessions left a row that cannot be settled. */
  predicate BreaksOff(db: Db, claim: OccurrenceClaim, now: int, s: Surroundings) {
    var oid, settle := claim.occurrenceId, AtSettle(db, claim, now, s);
    if LinkReturns(db, claim, now, s) then !s.commit.Acknowledged? && !StoredLink(settle, oid) && CloseRefused(settle, oid)
    else if s.fault.TransientFault? || (s.fault.NoFault? && Tried(db, claim, now, s).error.RunCapacity?)
    then PostponeRefused(settle, oid)
    else CloseRefused(settle, oid)
  }

  /** Where the occurrence of a handled claim stands. */
  predicate Settled(db: Db, oid: Id, end: ClaimEnd) {
    end.Aborted?
    || (&& oid in db.occurrences
        && var o := db.occurrences[oid];
           match end
           case Linked(run) => o.runId == Some(run)
           case ClosedFailed => TerminalOccurrence(o.state) && o.runId.None?
           case _ => o.state.Due? && o.runId.None?)
  }

  lemma {:induction false} RunConcat(db: Db, a: seq<Step>, b: seq<Step>)
    ensures Run(db, a + b) == Run(Run(db, a), b)
    decreases |a|
  {
    hide Apply;
    if a == [] {
      assert a + b == b;
    } else {
      assert (a + b)[0] == a[0] && (a + b)[1..] == a[1..] + b;
      RunConcat(Apply(db, a[0]), a[1..], b);
    }
  }

  method Meanwhile(store: Store, steps: seq<Step>)
    modifies store
    ensures store.View() == Run(old(store.View()), steps)
  {
    var after := Run(store.View(), steps);
    store.Rollback(after);
  }

  lemma FailedIsTerminal()
    ensures TerminalOccurrence(OccurrenceState.Failed)
  {
  }

  /** `fail_closed` and its commit. */
  method Close(store: Store, oid: Id, now: int, code: string) returns (end: ClaimEnd, ghost step: Step)
    requires now <= store.clock
    modifies store
    ensures store.View() == Apply(old(store.View()), step)
    ensures Closed(old(store.View()), oid, now, code, end, store.View())
    ensures Settled(store.View(), oid, end)
  {
    hide TerminalOccurrence;
    FailedIsTerminal();
    step := FailStep(oid, now, code);
    var r := store.CloseFailed(oid, now, code);
    end := if r.Err? then Aborted(r.error) else ClosedFailed;
  }

  lemma RowHasAutomation(db: Db, oid: Id)
    requires Inv(db) && oid in db.occurrences
    ensures db.occurrences[oid].slot.automationId in db.automations
  {
    hide OneActive, SlotsIndexed, RunsIndexed, LinksOk, WithinCapacity, RowOk, Captured;
  }

  /** A deferral leaves an unlinked row due, or failed after its last attempt. */
  lemma DeferEnds(o: Occurrence, id: Id, retryLimit: nat, now: int, capacity: bool)
    ensures
      var p := DeferRow(o, id, retryLimit, now, capacity);
      && p.runId == o.runId
      && (if !capacity && OutOfAttempts(o, retryLimit) then p.state.Failed? && TerminalOccurrence(p.state) else p.state.Due?)
  {
    hide RetryDelay;
  }

  lemma DeferIs(db: Db, oid: Id, now: int, capacity: bool)
    requires Inv(db) && now <= db.clock
    ensures
      if PostponeRefused(db, oid) then
        Defer(db, oid, now, capacity) == Err(AmbiguousOutcome) && Apply(db, DeferStep(oid, now, capacity)) == db
      else
        var o := db.occurrences[oid];
        && o.slot.automationId in db.automations
        && var after := Put(db, oid, DeferRow(o, oid, db.automations[o.slot.automationId].retryLimit, now, capacity));
           Defer(db, oid, now, capacity) == Ok(after) && Apply(db, DeferStep(oid, now, capacity)) == after
  {
    hide Inv, DeferRow;
    if oid in db.occurrences { RowHasAutomation(db, oid); }
  }

  /** `defer_setup` and its commit. */
  method Postpone(store: Store, oid: Id, now: int, capacity: bool) returns (end: ClaimEnd, ghost step: Step)
    requires Inv(store.View()) && now <= store.clock
    modifies store
    ensures store.View() == Apply(old(store.View()), step)
    ensures Postponed(old(store.View()), oid, now, capacity, end, store.View())
    ensures Settled(store.View(), oid, end)
  {
    hide Inv, Defer, Apply, DeferRow, TerminalOccurrence, OutOfAttempts;
    ghost var before := store.View();
    DeferIs(before, oid, now, capacity);
    if !PostponeRefused(before, oid) {
      var o := before.occurrences[oid];
      DeferEnds(o, oid, before.automations[o.slot.automationId].retryLimit, now, capacity);
    }
    step := DeferStep(oid, now, capacity);
    var r := store.DeferSetup(oid, now, capacity);
    if r.Err? {
      end := Aborted(r.error);
    } else if capacity {
      end := CapacityDeferred;
    } else {
      end := if r.value then RetryDeferred else ClosedFailed;
    }
  }

  lemma {:induction false} ClockAdvances(db: Db, steps: seq<Step>)
    ensures db.clock <= Run(db, steps).clock
    decreases |steps|
  {
    if steps != [] {
      StepClock(db, steps[0]);
      hide Apply;
      ClockAdvances(Apply(db, steps[0]), steps[1..]);
    }
  }

  lemma StepClock(db: Db, s: Step)
    ensures db.clock <= Apply(db, s).clock
  {
    hide IsDueAutomation, IsClaimable, BusyOccurrences, LiveRuns, ClaimHolds, RunRequestOf, ScopeValid, FirstFutureSlot;
  }

  /** A failed link: the transaction was rolled back; others may commit before the row is settled. */
  method SettleFailure(store: Store, oid: Id, now: int, transient: bool, capacity: bool, code: string, between: seq<Step>)
    returns (end: ClaimEnd, ghost steps: seq<Step>)
    requires Inv(store.View()) && now <= store.clock
    modifies store
    ensures store.View() == Run(old(store.View()), steps)
    ensures if transient || capacity then Postponed(Run(old(store.View()), between), oid, now, capacity, end, store.View())
            else Closed(Run(old(store.View()), between), oid, now, code, end, store.View())
    ensures Settled(store.View(), oid, end)
  {
    hide Inv, Apply, Run, Settled, Postponed, Closed;
    ghost var before := store.View();
    RunKeepsInv(before, between);
    ClockAdvances(before, between);
    Meanwhile(store, between);
    ghost var step;
    if transient || capacity {
      end, step := Postpone(store, oid, now, capacity);
    } else {
      end, step := Close(store, oid, now, code);
    }
    steps := between + [step];
    RunAppend(before, between, step);
  }

  /** One claim of `run_one_tick`. */
  method HandleClaim(store: Store, claim: OccurrenceClaim, now: int, s: Surroundings) returns (end: ClaimEnd, ghost steps: seq<Step>)
    requires Inv(store.View()) && now <= store.clock
    modifies store
    ensures store.View() == Run(old(store.View()), steps)
    ensures EndFits(old(store.View()), claim, now, s, end, store.View())
    ensures end.Aborted? <==> BreaksOff(old(store.View()), claim, now, s)
    ensures Settled(store.View(), claim.occurrenceId, end)
  {
    hide Inv, Run, Settled, Postponed, Closed, CreateAndLink;
    ghost var start := store.View();
    RunKeepsInv(start, s.before);
    ClockAdvances(start, s.before);
    Meanwhile(store, s.before);
    var oid, saved := claim.occurrenceId, store.View();
    ghost var more;
    if !s.fault.NoFault? {
      end, more := SettleFailure(store, oid, now, s.fault.TransientFault?, false, "setup_failed_safe", s.between);
    } else {
      var r := store.CreateAndLinkRun(claim, now, s.newRun);
      if r.Err? {
        end, more := SettleFailure(store, oid, now, false, r.error.RunCapacity?, "setup_failed_safe", s.between);
      } else {
        end, more := FinishLink(store, saved, r.value, claim, now, s);
      }
    }
    steps := s.before + more;
    RunConcat(start, s.before, more);
    EndsBreakOff(start, claim, now, s, end, store.View());
  }

  /** The commit of a link, and the read back when its acknowledgement is lost. */
  method FinishLink(store: Store, saved: Db, run: Id, claim: OccurrenceClaim, now: int, s: Surroundings)
    returns (end: ClaimEnd, ghost steps: seq<Step>)
    requires Inv(saved) && now <= saved.clock
    requires CreateAndLink(saved, claim, now, s.newRun) == Ok((store.View(), run))
    modifies store
    ensures store.View() == Run(saved, steps)
    ensures
      var linked := old(store.View());
      var settle := Run(if s.commit.LostApplied? then linked else saved, s.between);
      if s.commit.Acknowledged? then end == Linked(run) && store.View() == linked
      else if StoredLink(settle, claim.occurrenceId)
      then end == Linked(settle.occurrences[claim.occurrenceId].runId.value) && store.View() == settle
      else Closed(settle, claim.occurrenceId, now, "ambiguous_commit_outcome", end, store.View())
    ensures Settled(store.View(), claim.occurrenceId, end)
  {
    hide Inv, Apply, Run, Closed, CreateAndLink;
    ghost var link := LinkStep(claim, now, s.newRun);
    LinkCommits(saved, claim, now, s.newRun);
    RunAppend(saved, [], link);
    RunNothing(saved);
    assert [] + [link] == [link];
    if s.commit.Acknowledged? { return Linked(run), [link]; }
    ghost var sofar: seq<Step> := [];
    if s.commit.LostApplied? {
      sofar := [link];
      StepKeeps(saved, link);
    } else {
      store.Rollback(saved);
    }
    ghost var more;
    end, more := ReadBack(store, claim.occurrenceId, now, s.between);
    steps := sofar + more;
    RunConcat(saved, sofar, more);
  }

  lemma EndsBreakOff(db: Db, claim: OccurrenceClaim, now: int, s: Surroundings, end: ClaimEnd, after: Db)
    requires EndFits(db, claim, now, s, end, after)
    ensures end.Aborted? <==> BreaksOff(db, claim, now, s)
  {
    hide Run, CreateAndLink, DeferRow, FailRow;
  }

  lemma LinkCommits(db: Db, claim: OccurrenceClaim, now: int, newRun: Id)
    requires Inv(db) && now <= db.clock && CreateAndLink(db, claim, now, newRun).Ok?
    ensures
      var (after, run) := CreateAndLink(db, claim, now, newRun).value;
      && Apply(db, LinkStep(claim, now, newRun)) == after
      && claim.occurrenceId in after.occurrences && after.occurrences[claim.occurrenceId].runId == Some(run)
      && after.clock == db.clock
  {
    hide Inv, RunRequestOf, RunKeyOf, ClaimHolds, LiveRuns;
    LinkShape(db, claim, now, newRun);
    StepClock(db, LinkStep(claim, now, newRun));
  }

  lemma StepKeeps(db: Db, s: Step)
    requires Inv(db)
    ensures Inv(Apply(db, s))
  {
    hide Inv, Attempt, ClockAllows;
    if ClockAllows(db, s) && Attempt(db, s).Ok? { AttemptKeepsInv(db, s); }
  }

  /** After a lost acknowledgement: a durable link counts, anything else is closed. */
  method ReadBack(store: Store, oid: Id, now: int, between: seq<Step>) returns (end: ClaimEnd, ghost steps: seq<Step>)
    requires Inv(store.View()) && now <= store.clock
    modifies store
    ensures store.View() == Run(old(store.View()), steps)
    ensures
      var settle := Run(old(store.View()), between);
      if StoredLink(settle, oid) then end == Linked(settle.occurrences[oid].runId.value) && store.View() == settle
      else Closed(settle, oid, now, "ambiguous_commit_outcome", end, store.View())
    ensures Settled(store.View(), oid, end)
  {
    hide Inv, Apply, Run, Closed;
    ghost var before := store.View();
    RunKeepsInv(before, between);
    ClockAdvances(before, between);
    Meanwhile(store, between);
    steps := between;
    if oid in store.occurrences && store.occurrences[oid].runId.Some? && store.occurrences[oid].state.RunCreated? {
      end := Linked(store.occurrences[oid].runId.value);
    } else {
      ghost var step;
      end, step := Close(store, oid, now, "ambiguous_commit_outcome");
      steps := between + [step];
      RunAppend(before, between, step);
    }
  }

  // ----- the claims of a tick -----

  predicate DistinctClaims(claims: seq<OccurrenceClaim>) {
    forall i, j :: 0 <= i < j < |claims| ==> claims[i].occurrenceId != claims[j].occurrenceId
  }

  function ClaimedIds(claims: seq<OccurrenceClaim>): set<Id> {
    set k | 0 <= k < |claims| :: claims[k].occurrenceId
  }

  /** Reclaimed claims first, then the granted ones that are not among them. */
  method AllClaims(reclaimed: seq<OccurrenceClaim>, granted: seq<OccurrenceClaim>) returns (all: seq<OccurrenceClaim>)
    ensures reclaimed <= all && ClaimedIds(all) == ClaimedIds(reclaimed) + ClaimedIds(granted)
    ensures forall k :: |reclaimed| <= k < |all| ==> all[k] in granted && all[k].occurrenceId !in ClaimedIds(reclaimed)
    ensures DistinctClaims(reclaimed) && DistinctClaims(granted) ==> DistinctClaims(all)
  {
    all := reclaimed;
    ghost var distinct := DistinctClaims(reclaimed) && DistinctClaims(granted);
    for i := 0 to |granted|
      invariant reclaimed <= all && ClaimedIds(all) == ClaimedIds(reclaimed) + ClaimedIds(granted[..i])
      invariant forall k :: |reclaimed| <= k < |all| ==> all[k] in granted[..i] && all[k].occurrenceId !in ClaimedIds(reclaimed)
      invariant distinct ==> DistinctClaims(all)
    {
      ClaimedIdsAppend(granted[..i], granted[i]);
      assert granted[..i + 1] == granted[..i] + [granted[i]];
      if granted[i].occurrenceId !in ClaimedIds(reclaimed) {
        ClaimedIdsAppend(all, granted[i]);
        if distinct { NewIsDistinct(reclaimed, granted, i, all); }
        all := all + [granted[i]];
      }
    }
    assert granted[..|granted|] == granted;
  }

  lemma ClaimedIdsAppend(claims: seq<OccurrenceClaim>, c: OccurrenceClaim)
    ensures ClaimedIds(claims + [c]) == ClaimedIds(claims) + {c.occurrenceId}
  {
    var after := claims + [c];
    assert after[|claims|] == c;
    forall id ensures id in ClaimedIds(after) <==> id in ClaimedIds(claims) + {c.occurrenceId} {
      if id in ClaimedIds(claims) {
        var k :| 0 <= k < |claims| && claims[k].occurrenceId == id;
        assert after[k].occurrenceId == id;
      }
    }
  }

  lemma NewIsDistinct(reclaimed: seq<OccurrenceClaim>, granted: seq<OccurrenceClaim>, i: nat, all: seq<OccurrenceClaim>)
    requires i < |granted| && DistinctClaims(granted) && DistinctClaims(all) && reclaimed <= all
    requires forall k :: |reclaimed| <= k < |all| ==> all[k] in granted[..i]
    requires granted[i].occurrenceId !in ClaimedIds(reclaimed)
    ensures DistinctClaims(all + [granted[i]])
  {
    forall k | 0 <= k < |all| ensures all[k].occurrenceId != granted[i].occurrenceId {
      if k < |reclaimed| {
        assert reclaimed[k].occurrenceId in ClaimedIds(reclaimed);
      } else {
        var j :| 0 <= j < i && granted[j] == all[k];
      }
    }
  }

  datatype Report = Report(linked: seq<(Id, Id)>, deferred: seq<Id>, retryDeferred: seq<Id>, failed: seq<Id>, aborted: bool)

  function Record(r: Report, oid: Id, end: ClaimEnd): Report {
    match end
    case Linked(run) => r.(linked := r.linked + [(oid, run)])
    case CapacityDeferred => r.(deferred := r.deferred + [oid])
    case RetryDeferred => r.(retryDeferred := r.retryDeferred + [oid])
    case ClosedFailed => r.(failed := r.failed + [oid])
    case Aborted(_) => r.(aborted := true)
  }

  const NOTHING := Report([], [], [], [], false)

  /** The report of the first claims, by how each of them ended. */
  function Reported(claims: seq<OccurrenceClaim>, ends: seq<ClaimEnd>): Report
    requires |ends| <= |claims|
    decreases |ends|
  {
    if ends == [] then NOTHING
    else
      var n := |ends| - 1;
      Record(Reported(claims, ends[..n]), claims[n].occurrenceId, ends[n])
  }

  /** Some claim of this occurrence ended this way. */
  predicate EndedAs(claims: seq<OccurrenceClaim>, ends: seq<ClaimEnd>, oid: Id, end: ClaimEnd)
    requires |ends| <= |claims|
  {
    exists i :: 0 <= i < |ends| && claims[i].occurrenceId == oid && ends[i] == end
  }

  /** Each list holds exactly the occurrences whose claim ended that way. */
  lemma {:induction false} InItsList(claims: seq<OccurrenceClaim>, ends: seq<ClaimEnd>, oid: Id, run: Id)
    requires |ends| <= |claims|
    ensures
      var r := Reported(claims, ends);
      && ((oid, run) in r.linked <==> EndedAs(claims, ends, oid, Linked(run)))
      && (oid in r.deferred <==> EndedAs(claims, ends, oid, CapacityDeferred))
      && (oid in r.retryDeferred <==> EndedAs(claims, ends, oid, RetryDeferred))
      && (oid in r.failed <==> EndedAs(claims, ends, oid, ClosedFailed))
    decreases |ends|
  {
    if ends != [] {
      var n := |ends| - 1;
      InItsList(claims, ends[..n], oid, run);
      LastEnd(claims, ends, oid, Linked(run));
      LastEnd(claims, ends, oid, CapacityDeferred);
      LastEnd(claims, ends, oid, RetryDeferred);
      LastEnd(claims, ends, oid, ClosedFailed);
      hide EndedAs;
    }
  }

  lemma LastEnd(claims: seq<OccurrenceClaim>, ends: seq<ClaimEnd>, oid: Id, end: ClaimEnd)
    requires 0 < |ends| <= |claims|
    ensures
      var n := |ends| - 1;
      EndedAs(claims, ends, oid, end)
      <==> EndedAs(claims, ends[..n], oid, end) || (claims[n].occurrenceId == oid && ends[n] == end)
  {
    var front := ends[..|ends| - 1];
    if EndedAs(claims, front, oid, end) {
      var i :| 0 <= i < |front| && claims[i].occurrenceId == oid && front[i] == end;
      assert ends[i] == end;
    }
    if EndedAs(claims, ends, oid, end) {
      var i :| 0 <= i < |ends| && claims[i].occurrenceId == oid && ends[i] == end;
      assert i < |front| ==> front[i] == end;
    }
  }

  /** With one claim per occurrence, an occurrence is in the list of its own end and in no other. */
  lemma ExactlyOneList(claims: seq<OccurrenceClaim>, ends: seq<ClaimEnd>, i: nat, end: ClaimEnd)
    requires |ends| <= |claims| && DistinctClaims(claims) && i < |ends|
    ensures EndedAs(claims, ends, claims[i].occurrenceId, end) <==> ends[i] == end
  {
  }

  /** Reported links are stored, and stay. */
  predicate LinksHold(db: Db, r: Report) {
    forall k :: 0 <= k < |r.linked| ==>
      var (oid, run) := r.linked[k];
      oid in db.occurrences && db.occurrences[oid].runId == Some(run)
  }

  /** The tables before each claim and after the last one handled, each claim ending as it must. */
  predicate Handled(dbs: seq<Db>, claims: seq<OccurrenceClaim>, now: int, surroundings: nat -> Surroundings, ends: seq<ClaimEnd>) {
    && |dbs| == |ends| + 1 && |ends| <= |claims|
    && forall i :: 0 <= i < |ends| ==> EndFits(dbs[i], claims[i], now, surroundings(i), ends[i], dbs[i + 1])
  }

  /**
   The claim loop of `run_one_tick`.  Every claim up to the first one that cannot be settled ends as
   `EndFits` says and is reported in the list of its end; a reported link is durable whatever other
   sessions do; and the whole loop is one run of committed steps.
   */
  method HandleClaims(store: Store, claims: seq<OccurrenceClaim>, now: int, surroundings: nat -> Surroundings)
    returns (report: Report, ghost steps: seq<Step>, ghost ends: seq<ClaimEnd>, ghost dbs: seq<Db>)
    requires Inv(store.View()) && now <= store.clock
    modifies store
    ensures store.View() == Run(old(store.View()), steps) && Inv(store.View())
    ensures Handled(dbs, claims, now, surroundings, ends) && dbs[0] == old(store.View()) && dbs[|ends|] == store.View()
    ensures report == Reported(claims, ends)
    ensures !report.aborted ==> |ends| == |claims|
    ensures report.aborted ==> ends != [] && ends[|ends| - 1].Aborted?
    ensures forall i :: 0 <= i < |ends| - (if report.aborted then 1 else 0) ==> !ends[i].Aborted?
    ensures LinksHold(store.View(), report)
  {
    hide Inv, Run, Settled, EndFits, BreaksOff;
    ghost var start := store.View();
    report, steps, ends, dbs := NOTHING, [], [], [start];
    RunNothing(start);
    for i := 0 to |claims|
      invariant store.View() == Run(start, steps) && Inv(store.View()) && now <= store.clock
      invariant Handled(dbs, claims, now, surroundings, ends) && |ends| == i
      invariant dbs[0] == start && dbs[i] == store.View()
      invariant report == Reported(claims, ends)
      invariant !report.aborted && forall j :: 0 <= j < i ==> !ends[j].Aborted?
      invariant LinksHold(store.View(), report)
    {
      ghost var before := store.View();
      ghost var more;
      var end;
      end, more := HandleClaim(store, claims[i], now, surroundings(i));
      RunKeepsInv(before, more);
      ClockAdvances(before, more);
      LinksPersist(before, more, report);
      RunConcat(start, steps, more);
      steps := steps + more;
      LinkRecorded(store.View(), report, claims[i].occurrenceId, end);
      report := Record(report, claims[i].occurrenceId, end);
      assert (ends + [end])[..i] == ends;
      ends, dbs := ends + [end], dbs + [store.View()];
      if report.aborted { return; }
    }
  }

  lemma LinksPersist(db: Db, steps: seq<Step>, r: Report)
    requires Inv(db) && LinksHold(db, r)
    ensures LinksHold(Run(db, steps), r)
  {
    RunHistoryHolds(db, steps);
    hide Inv, Run;
  }

  lemma LinkRecorded(db: Db, r: Report, oid: Id, end: ClaimEnd)
    requires LinksHold(db, r) && Settled(db, oid, end)
    ensures LinksHold(db, Record(r, oid, end))
  {
  }
}
