/**
 Every committed transaction of the scheduler, of the operator and of the Run services as
 one step on the stored rows.  `Err` means rollback: the step did not happen.
 */
module SchedulerSteps {
  import opened Wrappers
  import opened AgentRunStates
  import opened SchedulerRows
  import Schedule
  import Recurrence
  import CatchUp

  // ----- WHERE clauses of the locking queries -----

  predicate IsDueAutomation(db: Db, aid: Id, now: int) {
    && aid in db.automations
    && var a := db.automations[aid];
       && a.lifecycle.Enabled? && a.nextAt.Some? && a.nextAt.value <= Minute(now)
       && forall o :: o in db.occurrences && db.occurrences[o].slot.automationId == aid
                      && Active(db.occurrences[o].state)
                      ==> db.occurrences[o].slot == Slot(aid, a.scheduleRevision, a.nextAt.value)
  }

  predicate IsClaimable(db: Db, oid: Id, now: int) {
    && oid in db.occurrences
    && var o := db.occurrences[oid];
       && o.state.Due? && o.slot.at <= Minute(now)
       && (o.retryNotBefore.Some? ==> o.retryNotBefore.value <= now)
       && (o.snapshot.mode.AutomaticReadOnly? ==> Schedulable(o.snapshot.agentKind, o.snapshot.agentVersion))
       && o.slot.automationId in db.automations
       && var a := db.automations[o.slot.automationId];
          a.lifecycle.Enabled? && a.revision == o.automationRevision
          && a.scheduleRevision == o.slot.scheduleRevision
  }

  predicate IsExpiredClaim(db: Db, oid: Id, now: int) {
    && oid in db.occurrences
    && db.occurrences[oid].state.Claimed?
    && db.occurrences[oid].leaseExpiresAt.Some? && db.occurrences[oid].leaseExpiresAt.value <= now
  }

  predicate IsLinked(db: Db, oid: Id) {
    oid in db.occurrences && db.occurrences[oid].runId.Some? && Busy(db.occurrences[oid].state)
  }

  // ----- row updates -----

  function Put(db: Db, oid: Id, o: Occurrence): Db {
    db.(occurrences := db.occurrences[oid := o])
  }

  function NewOccurrence(a: Automation, slot: Slot, now: int): Occurrence {
    var missed := a.missedPolicy.Skip?;
    var bounded := a.nextAt.Some? && a.nextAt.value * 60 * SECOND < now - 7 * 24 * 3600 * SECOND;
    Occurrence(
      slot, if missed then Missed else Due, 0, None,
      if !missed then None
      else if bounded then Some("missed_lookback_bounded") else Some("missed_skipped"), None,
      0, None, if missed then Some(now) else None,
      None, 0, None,
      a.revision, a.title, a.snapshot)
  }

  function GrantLease(o: Occurrence, now: int, owner: Id, lease: int): Occurrence {
    o.(state := Claimed, revision := o.revision + 1, leaseOwner := Some(owner),
       leaseGeneration := o.leaseGeneration + 1, leaseExpiresAt := Some(now + lease))
  }

  function FailRow(o: Occurrence, now: int, code: string): Occurrence {
    o.(state := OccurrenceState.Failed, errorCode := Some(code), disposition := Some("operator_review_required"),
       retryNotBefore := None, completedAt := Some(now), revision := o.revision + 1)
  }

  function BackToDue(o: Occurrence, notBefore: int, disposition: string): Occurrence {
    o.(state := Due, retryNotBefore := Some(notBefore), leaseOwner := None, leaseExpiresAt := None,
       disposition := Some(disposition), revision := o.revision + 1)
  }

  function RunDisposition(s: RunState): string {
    match s
    case Completed => "run_completed"
    case Failed => "run_failed"
    case Cancelled => "run_cancelled"
    case _ => "run_expired"
  }

  /** One row of `reconcile_linked`; `run` is the linked Run if it still exists. */
  function ReconcileRow(o: Occurrence, run: Option<RunRow>, now: int): Occurrence {
    if run.None? then
      o.(state := OccurrenceState.Failed, errorCode := Some("linked_run_missing"),
         disposition := Some("operator_review_required"), completedAt := Some(now), revision := o.revision + 1)
    else if Terminal(run.value.state) then
      var done := run.value.state.Completed?;
      o.(state := if done then OccurrenceState.Completed else OccurrenceState.Failed,
         disposition := Some(RunDisposition(run.value.state)),
         errorCode := if done then None else Some(RunDisposition(run.value.state)),
         completedAt := Some(now), revision := o.revision + 1)
    else if o.state.Claimed? then
      o.(state := RunCreated, disposition := Some("run_created"), revision := o.revision + 1)
    else o
  }

  // ----- scheduler transactions -----

  function Materialize(db: Db, aid: Id, newId: Id, now: int): Outcome<Db> {
    if !IsDueAutomation(db, aid, now) || newId in db.occurrences then Err(StepDisabled)
    else
      var a := db.automations[aid];
      match CatchUp.LatestDueAndFuture(a.schedule, a.nextAt, Minute(now))
      case Err(e) => Err(ScheduleFailed(e))
      case Ok(due) =>
        var slot := Slot(aid, a.scheduleRevision, due.latest.instant);
        var inserted :=
          if slot in db.slotIndex then db
          else Put(db, newId, NewOccurrence(a, slot, now)).(slotIndex := db.slotIndex[slot := newId]);
        var next := if due.following.None? then None else Some(due.following.value.instant);
        Ok(inserted.(automations := db.automations[aid := a.(nextAt := next)]))
  }

  predicate LeaseAllowed(lease: int) {
    MIN_LEASE <= lease <= MAX_LEASE
  }

  function ClaimOne(db: Db, oid: Id, now: int, owner: Id, lease: int): Outcome<Db> {
    if !LeaseAllowed(lease) then Err(ValidationError)
    else if !IsClaimable(db, oid, now) || |BusyOccurrences(db.occurrences)| >= MAX_ACTIVE_OCCURRENCES
    then Err(StepDisabled)
    else Ok(Put(db, oid, GrantLease(db.occurrences[oid], now, owner, lease)))
  }

  function ReclaimOne(db: Db, oid: Id, now: int, owner: Id, lease: int): Outcome<Db> {
    if !LeaseAllowed(lease) then Err(ValidationError)
    else if !IsExpiredClaim(db, oid, now) || db.occurrences[oid].runId.Some? then Err(StepDisabled)
    else Ok(Put(db, oid, GrantLease(db.occurrences[oid], now, owner, lease)))
  }

  function ReconcileOne(db: Db, oid: Id, now: int): Outcome<Db> {
    if !IsLinked(db, oid) then Err(StepDisabled)
    else
      var o := db.occurrences[oid];
      var run := if o.runId.value in db.runs then Some(db.runs[o.runId.value]) else None;
      Ok(Put(db, oid, ReconcileRow(o, run, now)))
  }

  function DeferRow(o: Occurrence, id: Id, retryLimit: nat, now: int, capacity: bool): Occurrence {
    if capacity then BackToDue(o, now + RetryDelay(id, 1), "capacity_deferred")
    else
      var tried := o.(attemptCount := o.attemptCount + 1);
      if tried.attemptCount >= Min(retryLimit, MAX_SETUP_ATTEMPTS)
      then FailRow(tried, now, "setup_retry_exhausted")
      else BackToDue(tried, now + RetryDelay(id, tried.attemptCount), "setup_retry_deferred")
  }

  function Defer(db: Db, oid: Id, now: int, capacity: bool): Outcome<Db> {
    if oid !in db.occurrences || db.occurrences[oid].runId.Some? then Err(AmbiguousOutcome)
    else
      var o := db.occurrences[oid];
      if o.slot.automationId !in db.automations || !o.state.Claimed? then Err(AmbiguousOutcome)
      else Ok(Put(db, oid, DeferRow(o, oid, db.automations[o.slot.automationId].retryLimit, now, capacity)))
  }

  function FailClosed(db: Db, oid: Id, now: int, code: string): Outcome<Db> {
    if oid !in db.occurrences || db.occurrences[oid].runId.Some? then Err(AmbiguousOutcome)
    else if TerminalOccurrence(db.occurrences[oid].state) then Ok(db)
    else Ok(Put(db, oid, FailRow(db.occurrences[oid], now, code)))
  }

  /** `_validate_claim`. */
  predicate ClaimHolds(a: Automation, o: Occurrence, claim: OccurrenceClaim, now: int) {
    && o.slot.automationId == claim.automationId
    && o.state.Claimed?
    && o.leaseOwner == Some(claim.ownerToken)
    && o.leaseGeneration == claim.leaseGeneration
    && o.leaseExpiresAt.Some? && o.leaseExpiresAt.value > now
    && a.lifecycle.Enabled?
    && a.revision == o.automationRevision
    && a.scheduleRevision == o.slot.scheduleRevision
    && a.snapshot == o.snapshot
  }

  function Renew(db: Db, claim: OccurrenceClaim, now: int, lease: int): Outcome<Db> {
    if !LeaseAllowed(lease) then Err(ValidationError)
    else if claim.automationId !in db.automations || claim.occurrenceId !in db.occurrences
    then Err(ClaimFenceError)
    else
      var o := db.occurrences[claim.occurrenceId];
      if !ClaimHolds(db.automations[claim.automationId], o, claim, now) then Err(ClaimFenceError)
      else Ok(Put(db, claim.occurrenceId,
                  o.(leaseExpiresAt := Some(now + lease), revision := o.revision + 1)))
  }

  /** `create_run`: replay an equal request under the same key, or insert below capacity. */
  function CreateRun(db: Db, newRun: Id, key: RunKey, request: RunRequest): Outcome<(Db, Id)> {
    if key in db.runIndex && db.runIndex[key] in db.runs then
      if db.runs[db.runIndex[key]].request == request then Ok((db, db.runIndex[key]))
      else Err(IdempotencyConflict)
    else if |LiveRuns(db.runs)| >= MAX_ACTIVE_RUNS then Err(RunCapacity)
    else if request.projectId.Some? && request.projectId.value !in db.projects then Err(ProjectNotFound)
    else if newRun in db.runs then Err(StepDisabled)
    else Ok((db.(runs := db.runs[newRun := RunRow(Created, key, request)],
                 runIndex := db.runIndex[key := newRun]), newRun))
  }

  predicate ProjectVisible(db: Db, projectId: Option<Id>) {
    projectId.Some? ==> projectId.value in db.projects
  }

  /** `create_and_link_run`; returns the Run of the occurrence. */
  function CreateAndLink(db: Db, claim: OccurrenceClaim, now: int, newRun: Id): Outcome<(Db, Id)> {
    if claim.automationId !in db.automations || claim.occurrenceId !in db.occurrences
    then Err(ClaimFenceError)
    else
      var oid := claim.occurrenceId;
      var o := db.occurrences[oid];
      var key := RunKeyOf(oid, o);
      if o.state.RunCreated? && o.runId.Some? then
        if key !in db.runIndex || db.runIndex[key] !in db.runs then Err(ValidationError)
        else if db.runs[db.runIndex[key]].request != RunRequestOf(o) then Err(IdempotencyConflict)
        else if db.runIndex[key] != o.runId.value then Err(ValidationError)
        else Ok((db, o.runId.value))
      else if !ClaimHolds(db.automations[claim.automationId], o, claim, now) then Err(ClaimFenceError)
      else
        var s := o.snapshot;
        if s.mode.AutomaticReadOnly? && !Schedulable(s.agentKind, s.agentVersion) then Err(ModeUnsupported)
        else if !Schedulable(s.agentKind, s.agentVersion)
                || (ProjectRequired(s.agentKind) && s.projectId.None?)
                || !ProjectVisible(db, s.projectId)
        then Err(ValidationError)
        else match CreateRun(db, newRun, key, RunRequestOf(o))
          case Err(e) => Err(e)
          case Ok((created, run)) =>
            if o.runId.Some? && o.runId.value != run then Err(ValidationError)
            else Ok((Put(created, oid, o.(runId := Some(run), state := RunCreated,
                                          revision := o.revision + 1, disposition := Some("run_created"))),
                     run))
  }

  // ----- operator transactions -----

  datatype Patch = Patch(
    title: Option<string>, projectId: Option<Option<Id>>, mode: Option<ExecutionMode>,
    schedule: Option<Schedule.Definition>, missedPolicy: Option<MissedPolicy>, retryLimit: Option<nat>)

  predicate ScopeValid(db: Db, s: Snapshot) {
    Schedulable(s.agentKind, s.agentVersion)
    && (ProjectRequired(s.agentKind) ==> s.projectId.Some?)
    && ProjectVisible(db, s.projectId)
  }

  predicate ModeValid(s: Snapshot, mode: ExecutionMode) {
    mode.AutomaticReadOnly? ==> Schedulable(s.agentKind, s.agentVersion)
  }

  function PutAutomation(db: Db, aid: Id, a: Automation): Db {
    db.(automations := db.automations[aid := a])
  }

  function CreateAutomation(db: Db, aid: Id, title: string, s: Snapshot, schedule: Schedule.Definition,
                            policy: MissedPolicy, retryLimit: nat): Outcome<Db> {
    if aid in db.automations then Err(StepDisabled)
    else if !Schedule.ValidDefinition(schedule) || !ScopeValid(db, s) || !ModeValid(s, s.mode)
    then Err(DefinitionError)
    else Ok(PutAutomation(db, aid,
                          Automation(title, s, Draft, 0, 0, schedule, policy, retryLimit, None)))
  }

  /** `_lock_expected`. */
  function LockExpected(db: Db, aid: Id, expected: nat): Outcome<Automation> {
    if aid !in db.automations then Err(NotFound)
    else if db.automations[aid].revision != expected then Err(RevisionConflict)
    else Ok(db.automations[aid])
  }

  /** The first slot after the present, which an operator transaction captures. */
  function FirstFutureSlot(schedule: Schedule.Definition, now: int): Outcome<int> {
    match Recurrence.NextPoint(schedule, Minute(now), None)
    case Err(e) => Err(ScheduleFailed(e))
    case Ok(None) => Err(DefinitionError)
    case Ok(Some(p)) => Ok(p.instant)
  }

  function PatchFields(a: Automation, patch: Patch): Automation {
    var s := a.snapshot;
    a.(title := if patch.title.Some? then patch.title.value else a.title,
       snapshot := s.(projectId := if patch.projectId.Some? then patch.projectId.value else s.projectId,
                      mode := if patch.mode.Some? then patch.mode.value else s.mode),
       schedule := if patch.schedule.Some? then patch.schedule.value else a.schedule,
       missedPolicy := if patch.missedPolicy.Some? then patch.missedPolicy.value else a.missedPolicy,
       retryLimit := if patch.retryLimit.Some? then patch.retryLimit.value else a.retryLimit,
       revision := a.revision + 1)
  }

  function UpdateAutomation(db: Db, aid: Id, expected: nat, patch: Patch): Outcome<Db> {
    match LockExpected(db, aid, expected)
    case Err(e) => Err(e)
    case Ok(a) =>
      if a.lifecycle.Cancelled? then Err(TransitionConflict)
      else if patch.(title := None) != Patch(None, None, None, None, None, None)
              && !a.lifecycle.Draft? && !a.lifecycle.Paused?
      then Err(TransitionConflict)
      else
        var b := PatchFields(a, patch);
        if !ScopeValid(db, b.snapshot.(mode := a.snapshot.mode)) then Err(DefinitionError)
        else if !Schedule.ValidDefinition(b.schedule) && patch.schedule.Some? then Err(DefinitionError)
        else if patch.mode.Some? && !ModeValid(a.snapshot, patch.mode.value) then Err(DefinitionError)
        else if patch.schedule.None? then Ok(PutAutomation(db, aid, b))
        else
          var c := b.(scheduleRevision := a.scheduleRevision + 1);
          if a.lifecycle.Draft? then Ok(PutAutomation(db, aid, c.(nextAt := None)))
          else match FirstFutureSlot(c.schedule, db.clock)
            case Err(e) => Err(e)
            case Ok(at) => Ok(PutAutomation(db, aid, c.(nextAt := Some(at))))
  }

  function SetExecutionMode(db: Db, aid: Id, expected: nat, mode: ExecutionMode): Outcome<Db> {
    match LockExpected(db, aid, expected)
    case Err(e) => Err(e)
    case Ok(a) =>
      if a.lifecycle.Cancelled? then Err(TransitionConflict)
      else if !ModeValid(a.snapshot, mode) then Err(DefinitionError)
      else Ok(PutAutomation(db, aid, a.(snapshot := a.snapshot.(mode := mode), revision := a.revision + 1)))
  }

  /** `enable_automation` from draft and `resume_automation` from paused. */
  function Activate(db: Db, aid: Id, expected: nat, from: Lifecycle): Outcome<Db> {
    match LockExpected(db, aid, expected)
    case Err(e) => Err(e)
    case Ok(a) =>
      if a.lifecycle != from then Err(TransitionConflict)
      else if !ScopeValid(db, a.snapshot) then Err(DefinitionError)
      else match FirstFutureSlot(a.schedule, db.clock)
        case Err(e) => Err(e)
        case Ok(at) =>
          Ok(PutAutomation(db, aid, a.(lifecycle := Enabled, nextAt := Some(at), revision := a.revision + 1)))
  }

  function Pause(db: Db, aid: Id, expected: nat): Outcome<Db> {
    match LockExpected(db, aid, expected)
    case Err(e) => Err(e)
    case Ok(a) =>
      if !a.lifecycle.Enabled? then Err(TransitionConflict)
      else Ok(PutAutomation(db, aid, a.(lifecycle := Paused, revision := a.revision + 1)))
  }

  function CancelAutomation(db: Db, aid: Id, expected: nat): Outcome<Db> {
    match LockExpected(db, aid, expected)
    case Err(e) => Err(e)
    case Ok(a) =>
      if a.lifecycle.Cancelled? then Err(TransitionConflict)
      else Ok(PutAutomation(db, aid, a.(lifecycle := Lifecycle.Cancelled, nextAt := None, revision := a.revision + 1)))
  }

  // ----- all steps -----

  datatype Step =
    | MaterializeStep(automation: Id, newOccurrence: Id, now: int)
    | ClaimStep(occurrence: Id, now: int, owner: Id, lease: int)
    | ReclaimStep(occurrence: Id, now: int, owner: Id, lease: int)
    | RenewStep(claim: OccurrenceClaim, now: int, lease: int)
    | LinkStep(claim: OccurrenceClaim, now: int, newRun: Id)
    | DeferStep(occurrence: Id, now: int, capacity: bool)
    | FailStep(occurrence: Id, now: int, code: string)
    | ReconcileStep(occurrence: Id, now: int)
    | CreateStep(automation: Id, title: string, snapshot: Snapshot, schedule: Schedule.Definition,
                 policy: MissedPolicy, retryLimit: nat)
    | UpdateStep(automation: Id, expected: nat, patch: Patch)
    | ModeStep(automation: Id, expected: nat, mode: ExecutionMode)
    | EnableStep(automation: Id, expected: nat)
    | ResumeStep(automation: Id, expected: nat)
    | PauseStep(automation: Id, expected: nat)
    | CancelStep(automation: Id, expected: nat)
    | CallerRunStep(newRun: Id, text: string, request: RunRequest)
    | RunStep(run: Id, to: RunState)
    | ProjectStep(project: Id)
    | ClockStep(now: int)

  /** A tick keeps using the clock value it read at its start, so `now` may be stale. */
  predicate ClockAllows(db: Db, s: Step) {
    match s
    case MaterializeStep(_, _, now) => now <= db.clock
    case ClaimStep(_, now, _, _) => now <= db.clock
    case ReclaimStep(_, now, _, _) => now <= db.clock
    case RenewStep(_, now, _) => now <= db.clock
    case LinkStep(_, now, _) => now <= db.clock
    case DeferStep(_, now, _) => now <= db.clock
    case FailStep(_, now, _) => now <= db.clock
    case ReconcileStep(_, now) => now <= db.clock
    case ClockStep(now) => now >= db.clock
    case _ => true
  }

  function First<A, B>(r: Outcome<(A, B)>): Outcome<A> {
    match r case Ok(p) => Ok(p.0) case Err(e) => Err(e)
  }

  function Attempt(db: Db, s: Step): Outcome<Db> {
    match s
    case MaterializeStep(aid, oid, now) => Materialize(db, aid, oid, now)
    case ClaimStep(oid, now, owner, lease) => ClaimOne(db, oid, now, owner, lease)
    case ReclaimStep(oid, now, owner, lease) => ReclaimOne(db, oid, now, owner, lease)
    case RenewStep(claim, now, lease) => Renew(db, claim, now, lease)
    case LinkStep(claim, now, run) => First(CreateAndLink(db, claim, now, run))
    case DeferStep(oid, now, capacity) => Defer(db, oid, now, capacity)
    case FailStep(oid, now, code) => FailClosed(db, oid, now, code)
    case ReconcileStep(oid, now) => ReconcileOne(db, oid, now)
    case CreateStep(aid, title, s, schedule, policy, retries) =>
      CreateAutomation(db, aid, title, s, schedule, policy, retries)
    case UpdateStep(aid, expected, patch) => UpdateAutomation(db, aid, expected, patch)
    case ModeStep(aid, expected, mode) => SetExecutionMode(db, aid, expected, mode)
    case EnableStep(aid, expected) => Activate(db, aid, expected, Draft)
    case ResumeStep(aid, expected) => Activate(db, aid, expected, Paused)
    case PauseStep(aid, expected) => Pause(db, aid, expected)
    case CancelStep(aid, expected) => CancelAutomation(db, aid, expected)
    case CallerRunStep(run, text, request) => First(CreateRun(db, run, FromCaller(text), request))
    case RunStep(run, to) =>
      if run in db.runs && LegalTransition(db.runs[run].state, to)
      then Ok(db.(runs := db.runs[run := db.runs[run].(state := to)]))
      else Err(StepDisabled)
    case ProjectStep(p) => Ok(db.(projects := db.projects + {p}))
    case ClockStep(now) => Ok(db.(clock := now))
  }

  function Apply(db: Db, s: Step): Db {
    if !ClockAllows(db, s) then db
    else match Attempt(db, s) case Ok(after) => after case Err(_) => db
  }

  /** Any interleaving of any workers is some sequence of steps. */
  function Run(db: Db, steps: seq<Step>): Db
    decreases |steps|
  {
    if steps == [] then db else Run(Apply(db, steps[0]), steps[1..])
  }

  const EMPTY := Db(0, {}, map[], map[], map[], map[], map[])
}
