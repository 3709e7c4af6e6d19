/** What the operator's transactions leave in the row of an automation, the captured slot above all. */
module SchedulerOperators {
  import opened Wrappers
  import opened SchedulerRows
  import opened SchedulerSteps
  import opened SchedulerInvariant
  import opened SchedulerSafety
  import opened SchedulerSlots
  import Schedule
  import Recurrence

  /** A slot of the schedule, as an instant in minutes. */
  ghost predicate IsSlot(d: Schedule.Definition, at: int)
    requires Schedule.OrdinaryZone(d.zone)
  {
    exists date :: HasSlotOn(d, date) && Schedule.SlotInstant(d, date) == at
  }

  /** The dates of a schedule: its one date, every day, or its weekdays. */
  predicate HasSlotOn(d: Schedule.Definition, date: int) {
    match d.kind
    case OneTime => d.oneTimeDate == Some(date)
    case Daily => true
    case Weekly => Schedule.IsoWeekday(date) in d.weekdays
  }

  predicate AfterClock(at: int, clock: int) {
    clock < at * 60 * SECOND
  }

  /** The first slot after the clock: no slot of the schedule lies between. */
  ghost predicate IsFirstSlot(d: Schedule.Definition, clock: int, at: int)
    requires Schedule.OrdinaryZone(d.zone)
  {
    IsSlot(d, at) && AfterClock(at, clock)
    && forall date :: HasSlotOn(d, date) && AfterClock(Schedule.SlotInstant(d, date), clock) ==> at <= Schedule.SlotInstant(d, date)
  }

  /** Only a one-time schedule can be over. */
  ghost predicate HasFuture(d: Schedule.Definition, clock: int)
    requires Schedule.OrdinaryZone(d.zone)
  {
    d.kind.OneTime? ==> d.oneTimeDate.Some? && AfterClock(Schedule.SlotInstant(d, d.oneTimeDate.value), clock)
  }

  lemma CaptureIsFirst(d: Schedule.Definition, clock: int)
    requires Schedule.ValidDefinition(d) && Schedule.OrdinaryZone(d.zone)
    ensures FirstFutureSlot(d, clock).Ok? <==> HasFuture(d, clock)
    ensures FirstFutureSlot(d, clock).Ok? ==> IsFirstSlot(d, clock, FirstFutureSlot(d, clock).value)
    ensures FirstFutureSlot(d, clock).Err? ==> FirstFutureSlot(d, clock).error == DefinitionError
  {
    hide Schedule.Point;
    if d.kind.OneTime? {
      var date := d.oneTimeDate.value;
      assert HasSlotOn(d, date);
      assert AfterClock(Schedule.SlotInstant(d, date), clock) <==> Schedule.SlotInstant(d, date) > Minute(clock);
    } else {
      Recurrence.NextPointIsLeast(d, Minute(clock));
      var p := Recurrence.NextPoint(d, Minute(clock), None).value.value;
      var date :| Recurrence.Configured(d, date) && Schedule.Point(d, date) == Ok(p);
      assert HasSlotOn(d, date) && Schedule.SlotInstant(d, date) == p.instant;
    }
  }

  lemma StoredIsValid(db: Db, aid: Id)
    requires SlotsOk(db) && aid in db.automations
    ensures Schedule.ValidDefinition(db.automations[aid].schedule)
  {
    assert NextIsCanonical(db.automations[aid]);
  }

  /** An agent the scheduler runs, with the Project it needs, which exists. */
  predicate ScopeOk(db: Db, s: Snapshot) {
    && s.agentVersion == "1" && (s.agentKind == "daily_brief" || s.agentKind == "project_watch")
    && (s.agentKind == "project_watch" ==> s.projectId.Some?)
    && (s.projectId.Some? ==> s.projectId.value in db.projects)
  }

  lemma ScopeIs(db: Db, s: Snapshot)
    ensures ScopeValid(db, s) <==> ScopeOk(db, s)
  {
  }

  // ----- enable and resume -----

  /** Enable or resume is granted exactly so, and the row then waits for the first slot after the clock. */
  lemma ActivationCapturesFirst(db: Db, aid: Id, expected: nat, from: Lifecycle)
    requires SlotsOk(db) && aid in db.automations && Schedule.OrdinaryZone(db.automations[aid].schedule.zone)
    ensures
      var a, r := db.automations[aid], Activate(db, aid, expected, from);
      && (r.Ok? <==> a.revision == expected && a.lifecycle == from && ScopeOk(db, a.snapshot) && HasFuture(a.schedule, db.clock))
      && (r.Ok? ==>
            && r.value == db.(automations := r.value.automations)
            && aid in r.value.automations && r.value.automations == db.automations[aid := r.value.automations[aid]]
            && var b := r.value.automations[aid];
               && b == a.(lifecycle := Enabled, revision := a.revision + 1, nextAt := b.nextAt)
               && b.nextAt.Some? && IsFirstSlot(a.schedule, db.clock, b.nextAt.value))
  {
    hide SlotsOk, HasFuture, IsFirstSlot, FirstFutureSlot, Schedule.ValidDefinition, ScopeValid, ScopeOk, NextIsCanonical;
    StoredIsValid(db, aid);
    ScopeIs(db, db.automations[aid].snapshot);
    CaptureIsFirst(db.automations[aid].schedule, db.clock);
  }

  // ----- updates -----

  /** The fields a patch names get its values, every other field stays. */
  predicate Patched(a: Automation, b: Automation, patch: Patch) {
    && (match patch.title case Some(t) => b.title == t case None => b.title == a.title)
    && (match patch.projectId case Some(p) => b.snapshot.projectId == p case None => b.snapshot.projectId == a.snapshot.projectId)
    && (match patch.mode case Some(m) => b.snapshot.mode == m case None => b.snapshot.mode == a.snapshot.mode)
    && (match patch.schedule case Some(d) => b.schedule == d case None => b.schedule == a.schedule)
    && (match patch.missedPolicy case Some(p) => b.missedPolicy == p case None => b.missedPolicy == a.missedPolicy)
    && (match patch.retryLimit case Some(n) => b.retryLimit == n case None => b.retryLimit == a.retryLimit)
    && b.snapshot.agentKind == a.snapshot.agentKind && b.snapshot.agentVersion == a.snapshot.agentVersion
    && b.lifecycle == a.lifecycle && b.revision == a.revision + 1
    && b.scheduleRevision == a.scheduleRevision + if patch.schedule.Some? then 1 else 0
  }

  /** Anything but the title needs a draft or a paused automation. */
  predicate OnlyTitle(patch: Patch) {
    patch.projectId.None? && patch.mode.None? && patch.schedule.None? && patch.missedPolicy.None? && patch.retryLimit.None?
  }

  /** An update takes the patch, and a new schedule of a paused automation its first slot after the clock. */
  lemma UpdateCapturesFirst(db: Db, aid: Id, expected: nat, patch: Patch)
    requires aid in db.automations
    requires patch.schedule.Some? ==> Schedule.OrdinaryZone(patch.schedule.value.zone)
    requires UpdateAutomation(db, aid, expected, patch).Ok?
    ensures
      var a, after := db.automations[aid], UpdateAutomation(db, aid, expected, patch).value;
      && a.revision == expected && !a.lifecycle.Cancelled? && (a.lifecycle.Enabled? ==> OnlyTitle(patch))
      && after == db.(automations := after.automations)
      && aid in after.automations && after.automations == db.automations[aid := after.automations[aid]]
      && var b := after.automations[aid];
         && Patched(a, b, patch)
         && (patch.schedule.None? ==> b.nextAt == a.nextAt)
         && (patch.schedule.Some? && a.lifecycle.Draft? ==> b.nextAt.None?)
         && (patch.schedule.Some? && a.lifecycle.Paused? ==>
               b.nextAt.Some? && IsFirstSlot(b.schedule, db.clock, b.nextAt.value))
  {
    hide ScopeValid, ModeValid, HasFuture, IsFirstSlot, FirstFutureSlot, Schedule.ValidDefinition;
    if patch.schedule.Some? && db.automations[aid].lifecycle.Paused? {
      CaptureIsFirst(patch.schedule.value, db.clock);
    }
  }

  /** And it is granted exactly to who saw the revision, while the lifecycle, the scope and the schedule allow it. */
  lemma UpdateGrantedIff(db: Db, aid: Id, expected: nat, patch: Patch)
    requires aid in db.automations
    requires patch.schedule.Some? ==> Schedule.OrdinaryZone(patch.schedule.value.zone)
    ensures
      var a := db.automations[aid];
      var project := if patch.projectId.Some? then patch.projectId.value else a.snapshot.projectId;
      UpdateAutomation(db, aid, expected, patch).Ok?
      <==> && a.revision == expected && !a.lifecycle.Cancelled? && (a.lifecycle.Enabled? ==> OnlyTitle(patch))
           && ScopeOk(db, a.snapshot.(projectId := project))
           && (patch.schedule.Some? ==>
                 Schedule.ValidDefinition(patch.schedule.value)
                 && (a.lifecycle.Paused? ==> HasFuture(patch.schedule.value, db.clock)))
  {
    hide HasFuture, FirstFutureSlot, Schedule.ValidDefinition;
    if patch.schedule.Some? && Schedule.ValidDefinition(patch.schedule.value) {
      CaptureIsFirst(patch.schedule.value, db.clock);
    }
  }

  // ----- the other edits -----

  /** Edits that only change the row, each granted exactly to who saw its revision while the lifecycle allows it. */
  lemma OtherEditsDecide(db: Db, aid: Id, expected: nat, mode: ExecutionMode)
    requires aid in db.automations
    ensures
      var a := db.automations[aid];
      && (Pause(db, aid, expected).Ok? <==> a.revision == expected && a.lifecycle.Enabled?)
      && (CancelAutomation(db, aid, expected).Ok? <==> a.revision == expected && !a.lifecycle.Cancelled?)
      && (SetExecutionMode(db, aid, expected, mode).Ok?
          <==> a.revision == expected && !a.lifecycle.Cancelled?
               && (mode.AutomaticReadOnly? ==>
                     a.snapshot.agentVersion == "1" && a.snapshot.agentKind in {"daily_brief", "project_watch"}))
    ensures
      var a := db.automations[aid];
      && RowBecomes(db, aid, Pause(db, aid, expected), a.(lifecycle := Paused, revision := a.revision + 1))
      && RowBecomes(db, aid, CancelAutomation(db, aid, expected), a.(lifecycle := Lifecycle.Cancelled, nextAt := None, revision := a.revision + 1))
      && RowBecomes(db, aid, SetExecutionMode(db, aid, expected, mode),
                    a.(snapshot := a.snapshot.(mode := mode), revision := a.revision + 1))
  {
  }

  predicate RowBecomes(db: Db, aid: Id, r: Outcome<Db>, b: Automation) {
    r.Ok? ==> r.value == db.(automations := db.automations[aid := b])
  }

  /** A new automation is a draft without a next slot, for a valid schedule and scope. */
  lemma CreationDecides(db: Db, aid: Id, title: string, s: Snapshot, schedule: Schedule.Definition, policy: MissedPolicy, retryLimit: nat)
    requires aid !in db.automations
    ensures
      var r := CreateAutomation(db, aid, title, s, schedule, policy, retryLimit);
      && (r.Ok? <==> Schedule.ValidDefinition(schedule) && ScopeOk(db, s))
      && (r.Ok? ==>
            && r.value == db.(automations := r.value.automations) && aid in r.value.automations
            && r.value.automations == db.automations[aid := r.value.automations[aid]]
            && var a := r.value.automations[aid];
               && a.title == title && a.snapshot == s && a.schedule == schedule && a.missedPolicy == policy && a.retryLimit == retryLimit
               && a.lifecycle.Draft? && a.nextAt.None? && a.revision == 0 && a.scheduleRevision == 0)
  {
    hide Schedule.ValidDefinition;
  }

  /** In every state reached from empty tables, for every automation in an ordinary zone. */
  lemma EnabledWaitsForFirst(steps: seq<Step>, aid: Id, expected: nat, resume: bool)
    requires aid in Run(EMPTY, steps).automations && Schedule.OrdinaryZone(Run(EMPTY, steps).automations[aid].schedule.zone)
    requires Activate(Run(EMPTY, steps), aid, expected, if resume then Paused else Draft).Ok?
    ensures
      var db := Run(EMPTY, steps);
      var after := Apply(db, if resume then ResumeStep(aid, expected) else EnableStep(aid, expected));
      && aid in after.automations && after.automations[aid].nextAt.Some?
      && IsFirstSlot(db.automations[aid].schedule, db.clock, after.automations[aid].nextAt.value)
  {
    hide Inv, SlotsOk, Activate, Run, IsFirstSlot;
    EmptyInv();
    EmptySlots();
    RunKeepsSlots(EMPTY, steps);
    ActivationCapturesFirst(Run(EMPTY, steps), aid, expected, if resume then Paused else Draft);
  }
}
