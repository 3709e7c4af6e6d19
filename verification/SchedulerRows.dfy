/**
 Rows of the automation scheduler: automations, their occurrences, and the Agent Runs that
 occurrences create.  Slots are whole UTC minutes; clock values and leases are microseconds.
 */
module SchedulerRows {
  import opened Wrappers
  import opened AgentRunStates
  import Schedule

  type Id = nat

  const MAX_BATCH_SIZE := 16
  const MAX_ACTIVE_OCCURRENCES := 32
  const SECOND := 1_000_000
  const MIN_LEASE := 10 * SECOND
  const MAX_LEASE := 300 * SECOND
  const MAX_SETUP_ATTEMPTS := 3
  const MAX_RETRY_SECONDS := 300

  datatype Lifecycle = Draft | Enabled | Paused | Cancelled

  datatype ExecutionMode = CreateOnly | AutomaticReadOnly

  datatype MissedPolicy = Skip | RunOnce

  datatype OccurrenceState =
    | Due | Claimed | RunCreated | Completed | Missed | Failed | CancelledOccurrence

  /** What an occurrence captures from its automation. */
  datatype Snapshot = Snapshot(
    agentKind: string, agentVersion: string, projectId: Option<Id>, mode: ExecutionMode)

  datatype Automation = Automation(
    title: string, snapshot: Snapshot, lifecycle: Lifecycle, revision: nat, scheduleRevision: nat,
    schedule: Schedule.Definition, missedPolicy: MissedPolicy, retryLimit: nat, nextAt: Option<int>)

  /** The unique slot key; the occurrence key spells out exactly these fields. */
  datatype Slot = Slot(automationId: Id, scheduleRevision: nat, at: int)

  datatype Occurrence = Occurrence(
    slot: Slot, state: OccurrenceState, revision: nat, runId: Option<Id>,
    disposition: Option<string>, errorCode: Option<string>,
    attemptCount: nat, retryNotBefore: Option<int>, completedAt: Option<int>,
    leaseOwner: Option<Id>, leaseGeneration: nat, leaseExpiresAt: Option<int>,
    automationRevision: nat, title: string, snapshot: Snapshot)

  datatype Goal = DailyBriefGoal(scoped: bool) | ProjectWatchGoal | ScheduledGoal(kind: string, title: string)

  datatype RunRequest = RunRequest(projectId: Option<Id>, agentKind: string, agentVersion: string, goal: Goal)

  /** Hashing is injective, so a key stands for its hash. */
  datatype RunKey = ForOccurrence(occurrenceId: Id, slot: Slot) | FromCaller(text: string)

  datatype RunRow = RunRow(state: RunState, key: RunKey, request: RunRequest)

  /** Stored rows, with the unique indexes on slots and idempotency keys. */
  datatype Db = Db(
    clock: int, projects: set<Id>,
    automations: map<Id, Automation>, occurrences: map<Id, Occurrence>, runs: map<Id, RunRow>,
    slotIndex: map<Slot, Id>, runIndex: map<RunKey, Id>)

  datatype OccurrenceClaim = OccurrenceClaim(
    occurrenceId: Id, automationId: Id, ownerToken: Id, leaseGeneration: nat)

  datatype SchedulerError =
    | ValidationError | ClaimFenceError | ModeUnsupported | AmbiguousOutcome
    | RunCapacity | IdempotencyConflict | ProjectNotFound
    | NotFound | RevisionConflict | TransitionConflict | DefinitionError
    | ScheduleFailed(cause: Schedule.ScheduleError)
    | StepDisabled

  type Outcome<T> = Result<T, SchedulerError>

  /** Minute a clock value falls in; a slot is due exactly from its minute on. */
  function Minute(now: int): int {
    now / (60 * SECOND)
  }

  predicate Active(s: OccurrenceState) {
    s.Due? || s.Claimed? || s.RunCreated?
  }

  predicate Busy(s: OccurrenceState) {
    s.Claimed? || s.RunCreated?
  }

  predicate TerminalOccurrence(s: OccurrenceState) {
    !Active(s)
  }

  /** `CATALOG` and the implemented automatic definitions have the same identities. */
  predicate Schedulable(kind: string, version: string) {
    (kind == "daily_brief" || kind == "project_watch") && version == "1"
  }

  predicate ProjectRequired(kind: string) {
    kind == "project_watch"
  }

  function RunRequestOf(o: Occurrence): RunRequest {
    var s := o.snapshot;
    var goal :=
      if s.agentKind == "daily_brief" && s.agentVersion == "1" then DailyBriefGoal(s.projectId.Some?)
      else if s.agentKind == "project_watch" && s.agentVersion == "1" then ProjectWatchGoal
      else ScheduledGoal(s.agentKind, o.title);
    RunRequest(s.projectId, s.agentKind, s.agentVersion, goal)
  }

  function RunKeyOf(id: Id, o: Occurrence): RunKey {
    ForOccurrence(id, o.slot)
  }

  /** `retry_delay` in microseconds. */
  function RetryDelay(id: Id, attempt: nat): (delay: int)
    ensures 0 < delay <= MAX_RETRY_SECONDS * SECOND
  {
    var base := Min(5 * PowerOfTwo(if attempt == 0 then 0 else attempt - 1), MAX_RETRY_SECONDS);
    Min(base + (id + attempt) % 5, MAX_RETRY_SECONDS) * SECOND
  }

  function Min(a: int, b: int): int {
    if a < b then a else b
  }

  function PowerOfTwo(n: nat): (p: nat)
    ensures p >= 1
  {
    if n == 0 then 1 else 2 * PowerOfTwo(n - 1)
  }

  function BusyOccurrences(occurrences: map<Id, Occurrence>): set<Id> {
    set o | o in occurrences && Busy(occurrences[o].state)
  }

  function LiveRuns(runs: map<Id, RunRow>): set<Id> {
    set r | r in runs && !Terminal(runs[r].state)
  }
}
