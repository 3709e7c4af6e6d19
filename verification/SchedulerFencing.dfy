/**
 Lease fencing over whole runs: every grant of an occurrence has its own generation, only
 the holder of the current one can link, and a claim that lost the lease never links again.
 */
module SchedulerFencing {
  import opened Wrappers
  import opened AgentRunStates
  import opened SchedulerRows
  import opened SchedulerSteps
  import opened SchedulerInvariant
  import opened SchedulerSafety

  /** The claim a committed step hands to its worker. */
  function Granted(db: Db, s: Step): Option<OccurrenceClaim> {
    if !ClockAllows(db, s) || Attempt(db, s).Err? then None
    else match s
      case ClaimStep(oid, _, owner, _) => Some(NewClaim(Attempt(db, s).value, oid, owner))
      case ReclaimStep(oid, _, owner, _) => Some(NewClaim(Attempt(db, s).value, oid, owner))
      case _ => None
  }

  function NewClaim(db: Db, oid: Id, owner: Id): OccurrenceClaim {
    if oid in db.occurrences
    then OccurrenceClaim(oid, db.occurrences[oid].slot.automationId, owner, db.occurrences[oid].leaseGeneration)
    else OccurrenceClaim(oid, 0, owner, 0)
  }

  /** A grant moves the stored generation up by one and installs its owner. */
  lemma GrantRaisesGeneration(db: Db, s: Step)
    requires Granted(db, s).Some?
    ensures var c, after := Granted(db, s).value, Apply(db, s);
            && c.occurrenceId in db.occurrences && c.occurrenceId in after.occurrences
            && c.leaseGeneration == db.occurrences[c.occurrenceId].leaseGeneration + 1
            && after.occurrences[c.occurrenceId].leaseGeneration == c.leaseGeneration
            && after.occurrences[c.occurrenceId].leaseOwner == Some(c.ownerToken)
            && after.occurrences[c.occurrenceId].state.Claimed?
  {
    hide BusyOccurrences, LeaseAllowed;
  }

  /** Two grants of one occurrence, anywhere in a run, never share a generation. */
  lemma GrantsAreDistinct(db: Db, s1: Step, between: seq<Step>, s2: Step)
    requires Inv(db) && Granted(db, s1).Some?
    requires Granted(Run(Apply(db, s1), between), s2).Some?
    requires Granted(db, s1).value.occurrenceId == Granted(Run(Apply(db, s1), between), s2).value.occurrenceId
    ensures Granted(db, s1).value.leaseGeneration
            < Granted(Run(Apply(db, s1), between), s2).value.leaseGeneration
  {
    hide Inv, Apply, Attempt, ClockAllows, Granted;
    GrantRaisesGeneration(db, s1);
    ApplyKeepsInv(db, s1);
    RunHistoryHolds(Apply(db, s1), between);
    GrantRaisesGeneration(Run(Apply(db, s1), between), s2);
  }

  lemma ApplyKeepsInv(db: Db, s: Step)
    requires Inv(db)
    ensures Inv(Apply(db, s)) && History(db, Apply(db, s))
  {
    hide Inv, Attempt, ClockAllows, History;
    SameRowsHistory(db, db);
    if ClockAllows(db, s) && Attempt(db, s).Ok? {
      AttemptKeepsInv(db, s);
      AttemptHistory(db, s);
    }
  }

  // ----- who links -----

  /** A stored link appears only through the claim that holds the live lease. */
  lemma OnlyTheHolderLinks(db: Db, s: Step, i: Id)
    requires Inv(db) && i in db.occurrences
    requires i in Apply(db, s).occurrences && Apply(db, s).occurrences[i].runId != db.occurrences[i].runId
    ensures s.LinkStep? && s.claim.occurrenceId == i && s.claim.automationId in db.automations
    ensures
      var a, o := db.automations[s.claim.automationId], db.occurrences[i];
      && o.state.Claimed? && o.slot.automationId == s.claim.automationId
      && o.leaseOwner == Some(s.claim.ownerToken) && o.leaseGeneration == s.claim.leaseGeneration
      && o.leaseExpiresAt.Some? && s.now < o.leaseExpiresAt.value
      && a.lifecycle.Enabled? && a.revision == o.automationRevision
      && a.scheduleRevision == o.slot.scheduleRevision && a.snapshot == o.snapshot
  {
    hide Inv, Materialize, ClaimOne, ReclaimOne, Renew, CreateAndLink, Defer, FailClosed, ReconcileOne,
         UpdateAutomation, SetExecutionMode, Activate, CreateRun, Pause, CancelAutomation, CreateAutomation, ClaimHolds;
    if ClockAllows(db, s) && Attempt(db, s).Ok? {
      if s.LinkStep? {
        LinkTouchesClaimed(db, s.claim, s.now, s.newRun, i);
        HolderIs(db.automations[s.claim.automationId], db.occurrences[i], s.claim, s.now);
      } else {
        OthersKeepLinks(db, s, i);
      }
    }
  }

  lemma HolderIs(a: Automation, o: Occurrence, claim: OccurrenceClaim, now: int)
    requires ClaimHolds(a, o, claim, now)
    ensures o.state.Claimed? && o.slot.automationId == claim.automationId
    ensures o.leaseOwner == Some(claim.ownerToken) && o.leaseGeneration == claim.leaseGeneration
    ensures o.leaseExpiresAt.Some? && now < o.leaseExpiresAt.value
    ensures a.lifecycle.Enabled? && a.revision == o.automationRevision
    ensures a.scheduleRevision == o.slot.scheduleRevision && a.snapshot == o.snapshot
  {
  }

  lemma LinkTouchesClaimed(db: Db, claim: OccurrenceClaim, now: int, newRun: Id, i: Id)
    requires Inv(db) && CreateAndLink(db, claim, now, newRun).Ok? && i in db.occurrences
    ensures var after := CreateAndLink(db, claim, now, newRun).value.0;
            i in after.occurrences
            && (after.occurrences[i].runId != db.occurrences[i].runId ==>
                  i == claim.occurrenceId && claim.automationId in db.automations
                  && ClaimHolds(db.automations[claim.automationId], db.occurrences[i], claim, now))
  {
    hide Inv, CreateAndLink, RunRequestOf, RunKeyOf, LiveRuns, ClaimHolds;
    LinkShape(db, claim, now, newRun);
  }

  /** Steps of operators, callers and Runs. */
  predicate Outside(s: Step) {
    s.CreateStep? || s.UpdateStep? || s.ModeStep? || s.EnableStep? || s.ResumeStep? || s.PauseStep? || s.CancelStep?
    || s.CallerRunStep? || s.RunStep? || s.ProjectStep? || s.ClockStep?
  }

  lemma OutsideKeepsOccurrences(db: Db, s: Step)
    requires Inv(db) && Outside(s) && Attempt(db, s).Ok?
    ensures Attempt(db, s).value.occurrences == db.occurrences
  {
    hide Inv, UpdateAutomation, Activate, CreateRun, ScopeValid, ModeValid, LegalTransition, LiveRuns;
    match s
    case UpdateStep(aid, expected, patch) =>
      var b := UpdateIsEdit(db, aid, expected, patch);
    case EnableStep(aid, expected) =>
      var b := ActivateIsEdit(db, aid, expected, Draft);
    case ResumeStep(aid, expected) =>
      var b := ActivateIsEdit(db, aid, expected, Paused);
    case CallerRunStep(run, text, request) => CreateRunKeepsRows(db, run, FromCaller(text), request);
    case _ =>
  }

  lemma OthersKeepLinks(db: Db, s: Step, i: Id)
    requires Inv(db) && !s.LinkStep? && Attempt(db, s).Ok? && i in db.occurrences
    ensures i in Attempt(db, s).value.occurrences
            && Attempt(db, s).value.occurrences[i].runId == db.occurrences[i].runId
  {
    if Outside(s) {
      hide Inv, Attempt;
      OutsideKeepsOccurrences(db, s);
    } else {
      hide Inv, Materialize, IsClaimable, DeferRow, ReconcileRow, BusyOccurrences, ClaimHolds, IsExpiredClaim, LeaseAllowed,
           RetryDelay, UpdateAutomation, Activate, CreateRun, CreateAutomation;
      match s
      case MaterializeStep(aid, oid, now) =>
        var at, next := MaterializeShape(db, aid, oid, now);
      case DeferStep(oid, now, capacity) => DeferRowKeepsLink(db, oid, now, capacity);
      case ReconcileStep(oid, now) => ReconcileKeepsLink(db, oid, now);
      case _ =>
    }
  }

  lemma DeferRowKeepsLink(db: Db, oid: Id, now: int, capacity: bool)
    requires Defer(db, oid, now, capacity).Ok?
    ensures forall i :: i in db.occurrences ==>
              i in Defer(db, oid, now, capacity).value.occurrences
              && Defer(db, oid, now, capacity).value.occurrences[i].runId == db.occurrences[i].runId
  {
    hide RetryDelay;
  }

  lemma ReconcileKeepsLink(db: Db, oid: Id, now: int)
    requires ReconcileOne(db, oid, now).Ok?
    ensures forall i :: i in db.occurrences ==>
              i in ReconcileOne(db, oid, now).value.occurrences
              && ReconcileOne(db, oid, now).value.occurrences[i].runId == db.occurrences[i].runId
  {
    hide RunDisposition;
  }

  // ----- superseded claims -----

  /** The lease a claim names has been taken over, given back or used up. */
  predicate Spent(db: Db, claim: OccurrenceClaim) {
    && claim.occurrenceId in db.occurrences
    && var o := db.occurrences[claim.occurrenceId];
       claim.leaseGeneration < o.leaseGeneration
       || (claim.leaseGeneration == o.leaseGeneration && !o.state.Claimed?)
  }

  /** How the lease of a row moves: a new grant, or the old generation leaving the claimed state. */
  ghost predicate LeaseMoves(o: Occurrence, p: Occurrence) {
    o.leaseGeneration < p.leaseGeneration
    || (o.leaseGeneration == p.leaseGeneration && (p.state.Claimed? ==> o.state.Claimed?))
  }

  lemma AttemptMovesLease(db: Db, s: Step, i: Id)
    requires Inv(db) && Attempt(db, s).Ok? && i in db.occurrences
    ensures i in Attempt(db, s).value.occurrences
            && LeaseMoves(db.occurrences[i], Attempt(db, s).value.occurrences[i])
  {
    if Outside(s) {
      hide Inv, Attempt;
      OutsideKeepsOccurrences(db, s);
    } else {
      hide Inv, Materialize, IsClaimable, DeferRow, ReconcileRow, BusyOccurrences, IsExpiredClaim, LeaseAllowed, RetryDelay,
           CreateAndLink, UpdateAutomation, Activate, CreateRun, CreateAutomation;
      match s
      case MaterializeStep(aid, oid, now) =>
        var at, next := MaterializeShape(db, aid, oid, now);
      case LinkStep(claim, now, run) => LinkMovesLease(db, claim, now, run, i);
      case DeferStep(oid, now, capacity) => DeferMovesLease(db, oid, now, capacity, i);
      case ReconcileStep(oid, now) => ReconcileMovesLease(db, oid, now, i);
      case _ =>
    }
  }

  lemma CreateRunKeepsRows(db: Db, run: Id, key: RunKey, request: RunRequest)
    requires CreateRun(db, run, key, request).Ok?
    ensures CreateRun(db, run, key, request).value.0.occurrences == db.occurrences
  {
    hide LiveRuns;
  }

  lemma LinkMovesLease(db: Db, claim: OccurrenceClaim, now: int, newRun: Id, i: Id)
    requires Inv(db) && CreateAndLink(db, claim, now, newRun).Ok? && i in db.occurrences
    ensures var after := CreateAndLink(db, claim, now, newRun).value.0;
            i in after.occurrences && LeaseMoves(db.occurrences[i], after.occurrences[i])
  {
    hide Inv, CreateAndLink, RunRequestOf, RunKeyOf, LiveRuns, ClaimHolds;
    LinkShape(db, claim, now, newRun);
  }

  lemma DeferMovesLease(db: Db, oid: Id, now: int, capacity: bool, i: Id)
    requires Defer(db, oid, now, capacity).Ok? && i in db.occurrences
    ensures i in Defer(db, oid, now, capacity).value.occurrences
            && LeaseMoves(db.occurrences[i], Defer(db, oid, now, capacity).value.occurrences[i])
  {
    hide RetryDelay;
  }

  lemma ReconcileMovesLease(db: Db, oid: Id, now: int, i: Id)
    requires ReconcileOne(db, oid, now).Ok? && i in db.occurrences
    ensures i in ReconcileOne(db, oid, now).value.occurrences
            && LeaseMoves(db.occurrences[i], ReconcileOne(db, oid, now).value.occurrences[i])
  {
    hide RunDisposition;
  }

  lemma {:induction false} SpentStaysSpent(db: Db, steps: seq<Step>, claim: OccurrenceClaim)
    requires Inv(db) && Spent(db, claim)
    ensures Spent(Run(db, steps), claim)
    decreases |steps|
  {
    hide Inv, Attempt, ClockAllows;
    if steps != [] {
      if ClockAllows(db, steps[0]) && Attempt(db, steps[0]).Ok? {
        AttemptKeepsInv(db, steps[0]);
        AttemptMovesLease(db, steps[0], claim.occurrenceId);
      }
      SpentStaysSpent(Apply(db, steps[0]), steps[1..], claim);
    }
  }

  /**
   Once its lease is gone, a claim never creates or links anything, whatever happens in
   between and however old the clock value it presents.
   */
  lemma SpentClaimNeverLinks(db: Db, claim: OccurrenceClaim, steps: seq<Step>, now: int, newRun: Id)
    requires Inv(db) && Spent(db, claim)
    ensures Apply(Run(db, steps), LinkStep(claim, now, newRun)) == Run(db, steps)
  {
    hide Inv;
    SpentStaysSpent(db, steps, claim);
    SpentClaimIsRefused(Run(db, steps), claim, now, newRun);
  }

  lemma SpentClaimIsRefused(db: Db, claim: OccurrenceClaim, now: int, newRun: Id)
    requires Spent(db, claim)
    ensures CreateAndLink(db, claim, now, newRun).Ok? ==> CreateAndLink(db, claim, now, newRun).value.0 == db
  {
    hide RunRequestOf, CreateRun;
  }

  /** A grant spends every earlier claim of the occurrence. */
  lemma TakeoverSpends(db: Db, s: Step, claim: OccurrenceClaim)
    requires claim.occurrenceId in db.occurrences
    requires claim.leaseGeneration <= db.occurrences[claim.occurrenceId].leaseGeneration
    requires Granted(db, s).Some? && Granted(db, s).value.occurrenceId == claim.occurrenceId
    ensures Spent(Apply(db, s), claim)
  {
    hide Apply, Granted;
    GrantRaisesGeneration(db, s);
  }

  // ----- slots -----

  /** Within a schedule revision, later inserted occurrences have strictly later slots. */
  lemma {:induction false} SlotsIncrease(db: Db, steps: seq<Step>, i: Id, j: Id)
    requires Inv(db) && i in db.occurrences && j !in db.occurrences && j in Run(db, steps).occurrences
    requires db.occurrences[i].slot.automationId == Run(db, steps).occurrences[j].slot.automationId
    requires db.occurrences[i].slot.scheduleRevision == Run(db, steps).occurrences[j].slot.scheduleRevision
    ensures db.occurrences[i].slot.at < Run(db, steps).occurrences[j].slot.at
    decreases |steps|
  {
    hide Inv, Attempt, ClockAllows, RowHistory;
    var next := Apply(db, steps[0]);
    ApplyKeepsInv(db, steps[0]);
    RunHistoryHolds(next, steps[1..]);
    SlotKept(db, next, i);
    if j in next.occurrences {
      SlotKept(next, Run(db, steps), j);
      InsertionIsLatest(db, steps[0], i, j);
    } else {
      SlotsIncrease(next, steps[1..], i, j);
    }
  }

  lemma SlotKept(db: Db, after: Db, i: Id)
    requires History(db, after) && i in db.occurrences
    ensures i in after.occurrences && after.occurrences[i].slot == db.occurrences[i].slot
  {
  }

  lemma InsertionIsLatest(db: Db, s: Step, i: Id, j: Id)
    requires Inv(db) && i in db.occurrences && j !in db.occurrences && j in Apply(db, s).occurrences
    requires db.occurrences[i].slot.automationId == Apply(db, s).occurrences[j].slot.automationId
    requires db.occurrences[i].slot.scheduleRevision == Apply(db, s).occurrences[j].slot.scheduleRevision
    ensures db.occurrences[i].slot.at < Apply(db, s).occurrences[j].slot.at
  {
    hide Inv, Materialize, UpdateAutomation, Activate, CreateAndLink, CreateRun, DeferRow, ReconcileRow,
         RunRequestOf, Minute;
    OnlyMaterializeInserts(db, s, j);
    var at, next := MaterializeShape(db, s.automation, s.newOccurrence, s.now);
    RowFacts(db, i);
  }

  lemma OnlyMaterializeInserts(db: Db, s: Step, j: Id)
    requires Inv(db) && j !in db.occurrences && j in Apply(db, s).occurrences
    ensures s.MaterializeStep? && Attempt(db, s).Ok?
  {
    hide Inv, Materialize, UpdateAutomation, Activate, CreateAndLink, DeferRow, ReconcileRow, RunRequestOf,
         BusyOccurrences, LiveRuns, ClaimHolds, CreateRun;
    if ClockAllows(db, s) && Attempt(db, s).Ok? {
      match s
      case UpdateStep(aid, expected, patch) =>
        var b := UpdateIsEdit(db, aid, expected, patch);
      case EnableStep(aid, expected) =>
        var b := ActivateIsEdit(db, aid, expected, Draft);
      case ResumeStep(aid, expected) =>
        var b := ActivateIsEdit(db, aid, expected, Paused);
      case LinkStep(claim, now, run) => LinkKeepsDomain(db, claim, now, run);
      case CallerRunStep(run, text, request) => CreateRunKeepsRows(db, run, FromCaller(text), request);
      case _ =>
    }
  }

  lemma LinkKeepsDomain(db: Db, claim: OccurrenceClaim, now: int, newRun: Id)
    requires Inv(db) && CreateAndLink(db, claim, now, newRun).Ok?
    ensures CreateAndLink(db, claim, now, newRun).value.0.occurrences.Keys == db.occurrences.Keys
  {
    hide Inv, CreateAndLink, RunRequestOf, RunKeyOf, LiveRuns, ClaimHolds;
    LinkShape(db, claim, now, newRun);
  }
}
