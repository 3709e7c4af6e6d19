/**
 Stored slots belong to the stored schedule: every next slot and every occurrence of the current
 schedule revision is canonical, so catch-up always starts from a slot and ends around `now`.
 */
module SchedulerSlots {
  import opened Wrappers
  import opened SchedulerRows
  import opened SchedulerSteps
  import opened AgentRunStates
  import opened SchedulerInvariant
  import opened SchedulerSafety
  import opened SchedulerFencing
  import Schedule
  import Recurrence
  import Chain
  import CatchUp

  /** `at` is the slot of a date the schedule has. */
  ghost predicate Canonical(d: Schedule.Definition, at: int) {
    exists date :: Chain.SlotOn(d, date, Schedule.ScheduledPoint(d.zone, at))
                   && (d.kind.OneTime? ==> d.oneTimeDate == Some(date))
  }

  ghost predicate NextIsCanonical(a: Automation) {
    && Schedule.ValidDefinition(a.schedule)
    && (Chain.RegularZone(a.schedule.zone) && a.nextAt.Some? ==> Canonical(a.schedule, a.nextAt.value))
  }

  ghost predicate RowIsCanonical(o: Occurrence, a: Automation) {
    o.slot.scheduleRevision == a.scheduleRevision && Chain.RegularZone(a.schedule.zone) ==> Canonical(a.schedule, o.slot.at)
  }

  ghost predicate SlotsOk(db: Db) {
    && (forall a :: a in db.automations ==> NextIsCanonical(db.automations[a]))
    && (forall i :: i in db.occurrences && db.occurrences[i].slot.automationId in db.automations ==>
          RowIsCanonical(db.occurrences[i], db.automations[db.occurrences[i].slot.automationId]))
  }

  // ----- where slots come from -----

  lemma PointIsCanonical(d: Schedule.Definition, date: int, p: Schedule.SchedulePoint)
    requires Schedule.ValidDefinition(d) && Chain.RegularZone(d.zone)
    requires Recurrence.Configured(d, date) && Schedule.Point(d, date) == Ok(p)
    requires d.kind.OneTime? ==> d.oneTimeDate == Some(date)
    ensures Schedule.ScheduledPoint(d.zone, p.instant) == p && Canonical(d, p.instant)
  {
    hide Schedule.Point, Schedule.ScheduledPoint, Recurrence.Configured;
    Schedule.PointRebuilt(d, date);
    assert Chain.SlotOn(d, date, Schedule.ScheduledPoint(d.zone, p.instant));
  }

  /** What an operator transaction captures is a slot of the schedule. */
  lemma FutureIsCanonical(d: Schedule.Definition, now: int)
    requires Chain.RegularZone(d.zone) && FirstFutureSlot(d, now).Ok?
    ensures Canonical(d, FirstFutureSlot(d, now).value)
  {
    var after := Minute(now);
    if d.kind.OneTime? {
      PointIsCanonical(d, d.oneTimeDate.value, Schedule.Point(d, d.oneTimeDate.value).value);
    } else {
      Chain.RegularIsOrdinary(d.zone);
      Recurrence.NextPointIsLeast(d, after);
      hide Schedule.Point, Recurrence.Configured, Chain.RegularZone;
      var p := Recurrence.NextPoint(d, after, None).value.value;
      var date :| Recurrence.Configured(d, date) && Schedule.Point(d, date) == Ok(p);
      PointIsCanonical(d, date, p);
    }
  }

  /** Days of downtime within the loop limit of the catch-up. */
  predicate WithinLimit(d: Schedule.Definition, at: int, now: int) {
    Recurrence.DateOf(d.zone, now) + 1 - Recurrence.DateOf(d.zone, at) < 1_000_000
  }

  /** The slots around `now` on the chain that starts at a stored slot; a one-time schedule has just one. */
  ghost predicate AroundNow(d: Schedule.Definition, at: int, now: int, due: CatchUp.Due) {
    if d.kind.OneTime? then due == CatchUp.Due(Schedule.ScheduledPoint(d.zone, at), None)
    else exists chain :: CatchUp.CaughtUp(d, Schedule.ScheduledPoint(d.zone, at), now, due, chain)
  }

  lemma CatchUpFromStored(d: Schedule.Definition, at: int, now: int)
    requires Schedule.ValidDefinition(d) && Chain.RegularZone(d.zone) && Canonical(d, at) && at <= now
    ensures WithinLimit(d, at, now) ==> CatchUp.LatestDueAndFuture(d, Some(at), now).Ok?
    ensures CatchUp.LatestDueAndFuture(d, Some(at), now).Ok? ==>
              var due := CatchUp.LatestDueAndFuture(d, Some(at), now).value;
              && AroundNow(d, at, now, due)
              && Canonical(d, due.latest.instant) && due.latest.instant <= now
              && (due.following.Some? ==> Canonical(d, due.following.value.instant) && now < due.following.value.instant)
  {
    hide Recurrence.DateOf, Chain.RegularZone, Schedule.Point, Recurrence.Configured, CatchUp.Advance, CatchUp.CaughtUp;
    var p := Schedule.ScheduledPoint(d.zone, at);
    var date :| Chain.SlotOn(d, date, p) && (d.kind.OneTime? ==> d.oneTimeDate == Some(date));
    if d.kind.OneTime? {
      OneTimeStops(d, date, p, now);
    } else {
      var chain := RecurringCatchUp(d, date, at, now);
      if CatchUp.LatestDueAndFuture(d, Some(at), now).Ok? {
        EndsAreCanonical(d, p, now, CatchUp.LatestDueAndFuture(d, Some(at), now).value, chain);
      }
    }
  }

  lemma RecurringCatchUp(d: Schedule.Definition, date: int, at: int, now: int) returns (chain: seq<Schedule.SchedulePoint>)
    requires Schedule.ValidDefinition(d) && !d.kind.OneTime? && Chain.RegularZone(d.zone) && at <= now
    requires Chain.SlotOn(d, date, Schedule.ScheduledPoint(d.zone, at))
    ensures WithinLimit(d, at, now) ==> CatchUp.LatestDueAndFuture(d, Some(at), now).Ok?
    ensures CatchUp.LatestDueAndFuture(d, Some(at), now).Ok? ==>
              CatchUp.CaughtUp(d, Schedule.ScheduledPoint(d.zone, at), now, CatchUp.LatestDueAndFuture(d, Some(at), now).value, chain)
  {
    hide CatchUp.Advance, CatchUp.CaughtUp, Recurrence.DateOf, Schedule.Point, Chain.RegularZone;
    var p := Schedule.ScheduledPoint(d.zone, at);
    assert p.instant == at;
    Chain.SlotKeepsDate(d, date);
    chain := CatchUp.AdvanceCatchesUp(d, date, p, now, at, at + CatchUp.CATCH_UP_LIMIT - 1);
  }

  lemma OneTimeStops(d: Schedule.Definition, date: int, p: Schedule.SchedulePoint, now: int)
    requires Schedule.ValidDefinition(d) && d.kind.OneTime? && d.oneTimeDate == Some(date)
    requires Schedule.Point(d, date) == Ok(p) && p == Schedule.ScheduledPoint(d.zone, p.instant)
    ensures CatchUp.LatestDueAndFuture(d, Some(p.instant), now) == Ok(CatchUp.Due(p, None))
  {
    hide Schedule.Point, Schedule.ScheduledPoint, Schedule.ValidDefinition;
  }

  lemma EndsAreCanonical(d: Schedule.Definition, p: Schedule.SchedulePoint, now: int, due: CatchUp.Due, chain: seq<Schedule.SchedulePoint>)
    requires !d.kind.OneTime? && Schedule.ValidDefinition(d) && Chain.RegularZone(d.zone)
    requires CatchUp.CaughtUp(d, p, now, due, chain) && p.instant <= now
    ensures Canonical(d, due.latest.instant) && due.latest.instant <= now
    ensures due.following.Some? && Canonical(d, due.following.value.instant) && now < due.following.value.instant
  {
    var all := chain + [due.following.value];
    assert all[|chain| - 1] == due.latest && all[|chain|] == due.following.value;
    hide Schedule.Point, Recurrence.Configured, Chain.RegularZone, Chain.IsSuccessorDate;
    PointIsCanonical(d, due.latest.localDate, due.latest);
    PointIsCanonical(d, due.following.value.localDate, due.following.value);
  }

  // ----- every step keeps it -----

  /** An edit: the schedule stays with its revision, or gets a new revision no occurrence has yet. */
  lemma EditKeepsSlots(db: Db, aid: Id, b: Automation)
    requires Inv(db) && SlotsOk(db) && aid in db.automations && NextIsCanonical(b)
    requires var a := db.automations[aid];
             (b.scheduleRevision == a.scheduleRevision && b.schedule == a.schedule) || b.scheduleRevision > a.scheduleRevision
    ensures SlotsOk(PutAutomation(db, aid, b))
  {
    hide NextIsCanonical, Canonical, Chain.RegularZone;
    var after := PutAutomation(db, aid, b);
    forall i | i in after.occurrences && after.occurrences[i].slot.automationId == aid
      ensures RowIsCanonical(after.occurrences[i], b)
    {
      RevisionBound(db, i);
      assert RowIsCanonical(db.occurrences[i], db.automations[aid]);
    }
  }

  lemma RevisionBound(db: Db, i: Id)
    requires Inv(db) && i in db.occurrences
    ensures db.occurrences[i].slot.automationId in db.automations
    ensures db.occurrences[i].slot.scheduleRevision <= db.automations[db.occurrences[i].slot.automationId].scheduleRevision
  {
    hide OneActive, SlotsIndexed, RunsIndexed, LinksOk, WithinCapacity, RowOk;
  }

  lemma UpdateKeepsSlots(db: Db, aid: Id, expected: nat, patch: Patch)
    requires Inv(db) && SlotsOk(db) && UpdateAutomation(db, aid, expected, patch).Ok?
    ensures SlotsOk(UpdateAutomation(db, aid, expected, patch).value)
  {
    var a, b := db.automations[aid], UpdateAutomation(db, aid, expected, patch).value.automations[aid];
    assert NextIsCanonical(a);
    assert UpdateAutomation(db, aid, expected, patch).value == PutAutomation(db, aid, b);
    hide Inv, SlotsOk, Canonical, Chain.RegularZone, Schedule.ValidDefinition, FirstFutureSlot, ScopeValid, ModeValid;
    if patch.schedule.Some? && !a.lifecycle.Draft? && Chain.RegularZone(b.schedule.zone) {
      FutureIsCanonical(b.schedule, db.clock);
    }
    EditKeepsSlots(db, aid, b);
  }

  lemma ActivateKeepsSlots(db: Db, aid: Id, expected: nat, from: Lifecycle)
    requires Inv(db) && SlotsOk(db) && Activate(db, aid, expected, from).Ok?
    ensures SlotsOk(Activate(db, aid, expected, from).value)
  {
    var a, b := db.automations[aid], Activate(db, aid, expected, from).value.automations[aid];
    assert NextIsCanonical(a);
    hide Inv, SlotsOk, Canonical, Chain.RegularZone, Schedule.ValidDefinition, FirstFutureSlot, ScopeValid;
    if Chain.RegularZone(b.schedule.zone) { FutureIsCanonical(b.schedule, db.clock); }
    EditKeepsSlots(db, aid, b);
  }

  /** Edits that leave the schedule alone and at most clear the next slot. */
  lemma LightEditKeepsSlots(db: Db, aid: Id, b: Automation)
    requires Inv(db) && SlotsOk(db) && aid in db.automations
    requires b.schedule == db.automations[aid].schedule && b.scheduleRevision == db.automations[aid].scheduleRevision
    requires b.nextAt == db.automations[aid].nextAt || b.nextAt.None?
    ensures SlotsOk(PutAutomation(db, aid, b))
  {
    assert NextIsCanonical(db.automations[aid]);
    hide Inv, SlotsOk, Canonical, Chain.RegularZone, Schedule.ValidDefinition;
    EditKeepsSlots(db, aid, b);
  }

  lemma SmallEditsKeepSlots(db: Db, s: Step)
    requires Inv(db) && SlotsOk(db) && (s.PauseStep? || s.CancelStep? || s.ModeStep?) && Attempt(db, s).Ok?
    ensures SlotsOk(Attempt(db, s).value)
  {
    hide Inv, SlotsOk, ModeValid;
    var aid := s.automation;
    var b := Attempt(db, s).value.automations[aid];
    assert Attempt(db, s).value == PutAutomation(db, aid, b);
    LightEditKeepsSlots(db, aid, b);
  }

  /** The catch-up a materialisation did. */
  function DueOf(db: Db, aid: Id, now: int): Outcome<CatchUp.Due>
    requires aid in db.automations
  {
    match CatchUp.LatestDueAndFuture(db.automations[aid].schedule, db.automations[aid].nextAt, Minute(now))
    case Err(e) => Err(ScheduleFailed(e))
    case Ok(due) => Ok(due)
  }

  function NextOf(due: CatchUp.Due): Option<int> {
    if due.following.None? then None else Some(due.following.value.instant)
  }

  lemma MaterializeInserts(db: Db, aid: Id, newId: Id, now: int)
    requires Inv(db) && Materialize(db, aid, newId, now).Ok?
    ensures aid in db.automations && IsDueAutomation(db, aid, now) && DueOf(db, aid, now).Ok?
    ensures
      var a, due := db.automations[aid], DueOf(db, aid, now).value;
      Materialize(db, aid, newId, now).value
      == Inserted(db, aid, newId, NewOccurrence(a, Slot(aid, a.scheduleRevision, due.latest.instant), now), NextOf(due))
  {
    hide Inv, CatchUp.LatestDueAndFuture, NewOccurrence;
    var at, next := MaterializeShape(db, aid, newId, now);
    var a, due := db.automations[aid], DueOf(db, aid, now).value;
    SlotOfNew(a, Slot(aid, a.scheduleRevision, due.latest.instant), now);
    SlotOfNew(a, Slot(aid, a.scheduleRevision, at), now);
    assert Materialize(db, aid, newId, now).value.occurrences[newId].slot.at == at;
  }

  lemma SlotOfNew(a: Automation, slot: Slot, now: int)
    ensures NewOccurrence(a, slot, now).slot == slot
  {
  }

  lemma MaterializeKeepsSlots(db: Db, aid: Id, newId: Id, now: int)
    requires Inv(db) && SlotsOk(db) && Materialize(db, aid, newId, now).Ok?
    ensures SlotsOk(Materialize(db, aid, newId, now).value)
  {
    hide Inv, Canonical, Materialize, IsDueAutomation, CatchUp.LatestDueAndFuture, AroundNow, Chain.RegularZone, Minute,
         Schedule.ValidDefinition, NewOccurrence;
    MaterializeInserts(db, aid, newId, now);
    DueNext(db, aid, now);
    var a, due := db.automations[aid], DueOf(db, aid, now).value;
    assert NextIsCanonical(a);
    if Chain.RegularZone(a.schedule.zone) {
      CatchUpFromStored(a.schedule, a.nextAt.value, Minute(now));
    }
    SlotOfNew(a, Slot(aid, a.scheduleRevision, due.latest.instant), now);
  }

  /** Rows keep their slots when no automation changes. */
  lemma RowsKeepSlots(db: Db, after: Db)
    requires SlotsOk(db) && after.automations == db.automations && History(db, after)
    requires forall i :: i in after.occurrences ==> i in db.occurrences
    ensures SlotsOk(after)
  {
    hide Canonical, Chain.RegularZone, NextIsCanonical;
    forall i | i in after.occurrences && after.occurrences[i].slot.automationId in after.automations
      ensures RowIsCanonical(after.occurrences[i], after.automations[after.occurrences[i].slot.automationId])
    {
      assert after.occurrences[i].slot == db.occurrences[i].slot;
      assert RowIsCanonical(db.occurrences[i], db.automations[db.occurrences[i].slot.automationId]);
    }
  }

  predicate EditStep(s: Step) {
    s.CreateStep? || s.UpdateStep? || s.ModeStep? || s.EnableStep? || s.ResumeStep? || s.PauseStep? || s.CancelStep?
  }

  lemma OthersKeepAutomations(db: Db, s: Step)
    requires Inv(db) && !EditStep(s) && !s.MaterializeStep? && Attempt(db, s).Ok?
    ensures Attempt(db, s).value.automations == db.automations
  {
    hide Inv, CreateAndLink, CreateRun, IsClaimable, BusyOccurrences, LiveRuns, DeferRow, ReconcileRow, LegalTransition, ClaimHolds;
    match s
    case LinkStep(claim, now, run) => LinkShape(db, claim, now, run);
    case CallerRunStep(run, text, request) => CreateRunKeepsAutomations(db, run, FromCaller(text), request);
    case _ =>
  }

  lemma CreateRunKeepsAutomations(db: Db, run: Id, key: RunKey, request: RunRequest)
    requires CreateRun(db, run, key, request).Ok?
    ensures CreateRun(db, run, key, request).value.0.automations == db.automations
  {
    hide LiveRuns;
  }

  lemma CreateKeepsSlots(db: Db, s: Step)
    requires Inv(db) && SlotsOk(db) && s.CreateStep? && Attempt(db, s).Ok?
    ensures SlotsOk(Attempt(db, s).value)
  {
    hide Canonical, Chain.RegularZone, Schedule.ValidDefinition, ScopeValid, ModeValid, OneActive, SlotsIndexed, RunsIndexed,
         LinksOk, WithinCapacity, RowOk, Captured;
    assert forall i :: i in db.occurrences ==> db.occurrences[i].slot.automationId != s.automation;
  }

  lemma AttemptKeepsSlots(db: Db, s: Step)
    requires Inv(db) && SlotsOk(db) && ClockAllows(db, s) && Attempt(db, s).Ok?
    ensures SlotsOk(Attempt(db, s).value)
  {
    hide Inv, SlotsOk, Materialize, UpdateAutomation, Activate, CreateAutomation, Pause, CancelAutomation, SetExecutionMode, History;
    if s.MaterializeStep? {
      MaterializeKeepsSlots(db, s.automation, s.newOccurrence, s.now);
    } else if EditStep(s) {
      match s
      case CreateStep(_, _, _, _, _, _) => CreateKeepsSlots(db, s);
      case UpdateStep(aid, expected, patch) => UpdateKeepsSlots(db, aid, expected, patch);
      case EnableStep(aid, expected) => ActivateKeepsSlots(db, aid, expected, Draft);
      case ResumeStep(aid, expected) => ActivateKeepsSlots(db, aid, expected, Paused);
      case _ => SmallEditsKeepSlots(db, s);
    } else {
      OthersKeepAutomations(db, s);
      AttemptHistory(db, s);
      hide Attempt;
      forall j | j in Attempt(db, s).value.occurrences ensures j in db.occurrences {
        if j !in db.occurrences { OnlyMaterializeInserts(db, s, j); }
      }
      RowsKeepSlots(db, Attempt(db, s).value);
    }
  }

  /** In every reachable state each next slot, and each occurrence of the current revision, is canonical. */
  lemma {:induction false} RunKeepsSlots(db: Db, steps: seq<Step>)
    requires Inv(db) && SlotsOk(db)
    ensures SlotsOk(Run(db, steps))
    decreases |steps|
  {
    hide Inv, SlotsOk, Attempt, ClockAllows;
    if steps != [] {
      if ClockAllows(db, steps[0]) && Attempt(db, steps[0]).Ok? {
        AttemptKeepsInv(db, steps[0]);
        AttemptKeepsSlots(db, steps[0]);
      }
      RunKeepsSlots(Apply(db, steps[0]), steps[1..]);
    }
  }

  /** The automation got its last slot not after `now`, and waits for the first one after it. */
  ghost predicate Advanced(a: Automation, now: int, o: Occurrence, b: Automation, due: CatchUp.Due) {
    && a.nextAt.Some? && AroundNow(a.schedule, a.nextAt.value, Minute(now), due)
    && due.latest.instant <= Minute(now) && Canonical(a.schedule, due.latest.instant)
    && (due.following.Some? ==> Minute(now) < due.following.value.instant && Canonical(a.schedule, due.following.value.instant))
    && o.slot.scheduleRevision == a.scheduleRevision && o.slot.at == due.latest.instant
    && b.nextAt == NextOf(due)
  }

  ghost predicate AdvancedRows(db: Db, aid: Id, newId: Id, now: int, after: Db) {
    && aid in db.automations && aid in after.automations && newId in after.occurrences
    && exists due :: Advanced(db.automations[aid], now, after.occurrences[newId], after.automations[aid], due)
  }

  predicate DueWithinLimit(db: Db, aid: Id, now: int) {
    && aid in db.automations && db.automations[aid].nextAt.Some?
    && WithinLimit(db.automations[aid].schedule, db.automations[aid].nextAt.value, Minute(now))
  }

  /**
   In every reachable state, for regular zones: a due automation materialises without a schedule error
   (within the loop limit), gets the last slot of its chain that is not after `now`, and its next slot
   becomes the first one after `now`.
   */
  lemma MaterializeIsExact(steps: seq<Step>, aid: Id, newId: Id, now: int)
    requires IsDueAutomation(Run(EMPTY, steps), aid, now) && newId !in Run(EMPTY, steps).occurrences
    requires aid in Run(EMPTY, steps).automations && Chain.RegularZone(Run(EMPTY, steps).automations[aid].schedule.zone)
    ensures DueWithinLimit(Run(EMPTY, steps), aid, now) ==> Materialize(Run(EMPTY, steps), aid, newId, now).Ok?
    ensures Materialize(Run(EMPTY, steps), aid, newId, now).Ok? ==>
              AdvancedRows(Run(EMPTY, steps), aid, newId, now, Materialize(Run(EMPTY, steps), aid, newId, now).value)
  {
    hide Inv, SlotsOk, Attempt, ClockAllows, IsDueAutomation, Materialize, AdvancedRows, DueWithinLimit, Chain.RegularZone;
    EmptyInv();
    assert SlotsOk(EMPTY) by { EmptySlots(); }
    RunKeepsInv(EMPTY, steps);
    RunKeepsSlots(EMPTY, steps);
    DueIsExact(Run(EMPTY, steps), aid, newId, now);
  }

  lemma EmptySlots()
    ensures SlotsOk(EMPTY)
  {
  }

  lemma DueIsExact(db: Db, aid: Id, newId: Id, now: int)
    requires Inv(db) && SlotsOk(db) && IsDueAutomation(db, aid, now) && newId !in db.occurrences
    requires aid in db.automations && Chain.RegularZone(db.automations[aid].schedule.zone)
    ensures DueWithinLimit(db, aid, now) ==> Materialize(db, aid, newId, now).Ok?
    ensures Materialize(db, aid, newId, now).Ok? ==>
              AdvancedRows(db, aid, newId, now, Materialize(db, aid, newId, now).value)
  {
    var a := db.automations[aid];
    assert NextIsCanonical(a);
    hide Inv, SlotsOk, Canonical, CatchUp.LatestDueAndFuture, AroundNow, Chain.RegularZone, Minute, NewOccurrence, WithinLimit,
         Schedule.ValidDefinition;
    DueNext(db, aid, now);
    hide IsDueAutomation;
    CatchUpFromStored(a.schedule, a.nextAt.value, Minute(now));
    if DueOf(db, aid, now).Ok? {
      DueMaterializes(db, aid, newId, now);
      var due := DueOf(db, aid, now).value;
      MaterializeInserts(db, aid, newId, now);
      SlotOfNew(a, Slot(aid, a.scheduleRevision, due.latest.instant), now);
      hide Materialize;
      var after := Materialize(db, aid, newId, now).value;
      assert Advanced(a, now, after.occurrences[newId], after.automations[aid], due);
    } else {
      DueFails(db, aid, newId, now);
    }
  }

  lemma DueMaterializes(db: Db, aid: Id, newId: Id, now: int)
    requires IsDueAutomation(db, aid, now) && newId !in db.occurrences && aid in db.automations && DueOf(db, aid, now).Ok?
    ensures Materialize(db, aid, newId, now).Ok?
  {
    hide IsDueAutomation, CatchUp.LatestDueAndFuture, NewOccurrence;
  }

  lemma DueFails(db: Db, aid: Id, newId: Id, now: int)
    requires aid in db.automations && DueOf(db, aid, now).Err?
    ensures Materialize(db, aid, newId, now).Err?
  {
    hide IsDueAutomation, CatchUp.LatestDueAndFuture, NewOccurrence;
  }
}
