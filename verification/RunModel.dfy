/**
 One Agent Run with its ordered steps, tool invocations and event log.  Every committed
 transaction of planning, execution, recovery, cancellation and synthesis is one step.
 */
module RunModel {
  import opened Wrappers
  import opened AgentRunStates
  import opened ToolPolicy

  const SECOND := 1_000_000
  const RECOVERY_GRACE := 30 * SECOND
  const EVENT_READ_LIMIT := 1000
  const PLAN_LIMIT := 12
  const STEP_BUDGET := 12
  const TOOL_CALL_BUDGET := 20
  const RETRY_BUDGET := 1
  const RUN_DURATION := 600 * SECOND

  datatype StepStatus = Pending | InProgress | Succeeded | StepFailed | StepCancelled

  datatype AgentStep = AgentStep(tool: ToolId, input: ToolInput, status: StepStatus)

  datatype InvocationStatus = Reserved | InFlight | Done | Errored | TimedOut | Discarded

  datatype ErrorCode =
    | ToolTimeout | ToolProviderUnavailable | ToolProviderFailed | ToolOutputOversized
    | CancellationDiscard | ToolResultDiscarded | DeadlineExpired | OtherCode(text: string)

  datatype Invocation = Invocation(
    step: nat, attempt: nat, tool: ToolId, authority: string, status: InvocationStatus,
    error: Option<ErrorCode>, reservedAt: int)

  datatype ResultKind = ResearchResult | CuratorResult | DailyBriefResult | ProjectWatchResult

  datatype EventBody =
    | RunCreatedEvent
    | StateChanged(previous: RunState, next: RunState, revision: nat)
    | ResultEvent(kind: ResultKind)
    | Other

  datatype Event = Event(sequence: int, body: EventBody)

  datatype AgentRun = AgentRun(
    state: RunState, revision: nat, captured: Captured, supported: bool,
    stepBudget: int, retryBudget: int, planningDeadline: int, runDeadline: int,
    steps: seq<AgentStep>, invocations: seq<Invocation>, events: seq<Event>)

  datatype RunError =
    | RevisionConflict | TransitionConflict | PlanInvalid | RegistryVersionError | AgentVersionError

  type Outcome<T> = Result<T, RunError>

  // ----- events and transitions -----

  /** `max(sequence)` of the stored events, -1 without events. */
  function MaxSequence(events: seq<Event>): int {
    if events == [] then -1
    else
      var rest := MaxSequence(events[..|events| - 1]);
      var last := events[|events| - 1].sequence;
      if rest < last then last else rest
  }

  function Append(run: AgentRun, body: EventBody): AgentRun {
    run.(events := run.events + [Event(MaxSequence(run.events) + 1, body)])
  }

  function NewRun(captured: Captured, supported: bool, now: int): AgentRun {
    Append(AgentRun(Created, 0, captured.(toolCallBudget := TOOL_CALL_BUDGET), supported,
                    STEP_BUDGET, RETRY_BUDGET, now + RUN_DURATION, now + RUN_DURATION, [], [], []),
           RunCreatedEvent)
  }

  /** `transition_run`. */
  function Transition(run: AgentRun, expectedState: RunState, expectedRevision: nat, to: RunState, now: int): Outcome<AgentRun> {
    if run.state != expectedState || !LegalTransition(run.state, to) then Err(TransitionConflict)
    else if run.revision != expectedRevision then Err(RevisionConflict)
    else if to.Expired? && now < (if run.state.Created? || run.state.Planning? then run.planningDeadline
                                  else run.runDeadline)
    then Err(TransitionConflict)
    else Ok(Append(run.(state := to, revision := run.revision + 1),
                     StateChanged(run.state, to, run.revision + 1)))
  }

  // ----- planning -----

  function ClaimPlanning(run: AgentRun, expected: nat): Outcome<AgentRun> {
    if run.state.Ready? then
      if CompletePlan(run) then Ok(run) else Err(TransitionConflict)
    else if run.revision != expected then Err(RevisionConflict)
    else if run.captured.registryVersion != REGISTRY_VERSION then Err(RegistryVersionError)
    else if !run.supported then Err(AgentVersionError)
    else if !run.state.Created? then Err(TransitionConflict)
    else Transition(run, Created, expected, Planning, 0)
  }

  predicate CompletePlan(run: AgentRun) {
    && 1 <= |run.steps| <= (if run.stepBudget < PLAN_LIMIT then run.stepBudget else PLAN_LIMIT)
    && forall k :: 0 <= k < |run.steps| ==> run.steps[k].status.Pending?
  }

  datatype PlannedStep = PlannedStep(tool: ToolId, input: ToolInput)

  function PendingSteps(plan: seq<PlannedStep>): seq<AgentStep> {
    seq(|plan|, k requires 0 <= k < |plan| => AgentStep(plan[k].tool, plan[k].input, Pending))
  }

  function FinalizePlan(run: AgentRun, planningRevision: nat, plan: seq<PlannedStep>): Outcome<AgentRun> {
    if !run.state.Planning? || run.revision != planningRevision || run.steps != [] then Err(TransitionConflict)
    else Transition(run.(steps := PendingSteps(plan)), Planning, planningRevision, Ready, 0)
  }

  function FailPlanning(run: AgentRun, planningRevision: nat): Outcome<AgentRun> {
    if !run.state.Planning? || run.revision != planningRevision then Ok(run)
    else Transition(run, Planning, planningRevision, Failed, 0)
  }

  // ----- claiming execution -----

  /** The first READY to RUNNING event among the events read. */
  function OriginalClaim(events: seq<Event>): Option<int>
    decreases |events|
  {
    if events == [] then None
    else match events[0].body
      case StateChanged(Ready, Running, revision) => Some(revision - 1)
      case _ => OriginalClaim(events[1..])
  }

  function ReadEvents(run: AgentRun): seq<Event> {
    if |run.events| <= EVENT_READ_LIMIT then run.events else run.events[..EVENT_READ_LIMIT]
  }

  datatype ClaimResult = ClaimResult(run: AgentRun, claimed: bool)

  predicate PlanExecutable(run: AgentRun, reg: Registry, allowed: Option<set<ToolId>>) {
    && run.steps != [] && |run.steps| <= run.stepBudget
    && forall k :: 0 <= k < |run.steps| ==>
         && run.steps[k].status.Pending?
         && run.steps[k].tool in reg
         && (allowed.Some? ==> run.steps[k].tool in allowed.value)
  }

  function ClaimExecution(run: AgentRun, expected: nat, reg: Registry, allowed: Option<set<ToolId>>, now: int): Outcome<ClaimResult> {
    var original := OriginalClaim(ReadEvents(run));
    if Terminal(run.state) then
      if original == Some(expected) then Ok(ClaimResult(run, false)) else Err(RevisionConflict)
    else if run.state.Running? then
      if original == Some(expected) then Err(TransitionConflict) else Err(RevisionConflict)
    else if run.revision != expected then Err(RevisionConflict)
    else if !run.state.Ready? then Err(TransitionConflict)
    else if run.captured.registryVersion != REGISTRY_VERSION then Err(RegistryVersionError)
    else if !run.supported then Err(AgentVersionError)
    else if now >= run.runDeadline then
      match Transition(run, Ready, run.revision, Expired, now)
      case Err(e) => Err(e)
      case Ok(after) => Ok(ClaimResult(after, false))
    else if !PlanExecutable(run, reg, allowed) then Err(PlanInvalid)
    else match Transition(run, Ready, run.revision, Running, now)
      case Err(e) => Err(e)
      case Ok(after) => Ok(ClaimResult(after, true))
  }

  // ----- row updates -----

  predicate ActiveInvocation(v: Invocation) {
    v.status.Reserved? || v.status.InFlight?
  }

  predicate OpenStep(s: AgentStep) {
    s.status.Pending? || s.status.InProgress?
  }

  function DiscardActive(invocations: seq<Invocation>, code: ErrorCode): seq<Invocation> {
    seq(|invocations|, k requires 0 <= k < |invocations| =>
      if ActiveInvocation(invocations[k])
      then invocations[k].(status := Discarded, error := Some(code)) else invocations[k])
  }

  function CancelOpen(steps: seq<AgentStep>): seq<AgentStep> {
    seq(|steps|, k requires 0 <= k < |steps| =>
      if OpenStep(steps[k]) then steps[k].(status := StepCancelled) else steps[k])
  }

  function SetStep(run: AgentRun, k: nat, status: StepStatus): AgentRun
    requires k < |run.steps|
  {
    run.(steps := run.steps[k := run.steps[k].(status := status)])
  }

  function SetInvocation(run: AgentRun, i: nat, status: InvocationStatus, error: Option<ErrorCode>): AgentRun
    requires i < |run.invocations|
  {
    run.(invocations := run.invocations[i := run.invocations[i].(status := status, error := error)])
  }

  function FailRun(run: AgentRun, now: int): Outcome<AgentRun> {
    Transition(run, Running, run.revision, Failed, now)
  }

  function FailWithoutInvocation(run: AgentRun, k: nat, now: int): Outcome<AgentRun>
    requires k < |run.steps|
  {
    FailRun(Append(SetStep(run, k, StepFailed), Other), now)
  }

  function FailActiveStep(run: AgentRun, k: nat, now: int): Outcome<AgentRun>
    requires k < |run.steps|
  {
    FailRun(SetStep(run, k, StepFailed), now)
  }

  function ExpireExecution(run: AgentRun, now: int): Outcome<AgentRun> {
    Transition(run.(invocations := DiscardActive(run.invocations, DeadlineExpired), steps := CancelOpen(run.steps)),
               Running, run.revision, Expired, now)
  }

  // ----- reserving and finalizing -----

  datatype RetryClass = Never | SafeTransientRead | AmbiguousManualRecovery

  predicate Transient(code: Option<ErrorCode>) {
    code.Some? && (code.value.ToolTimeout? || code.value.ToolProviderUnavailable? || code.value.ToolProviderFailed?)
  }

  /** `classify_retry`. */
  function ClassifyRetry(code: Option<ErrorCode>, authority: string, pureRead: bool): RetryClass {
    if !Transient(code) then Never
    else if authority == "read" && pureRead then SafeTransientRead
    else AmbiguousManualRecovery
  }

  /** First open step, or the number of steps. */
  function Candidate(steps: seq<AgentStep>, from: nat): (k: nat)
    requires from <= |steps|
    ensures from <= k <= |steps|
    ensures k < |steps| ==> OpenStep(steps[k])
    ensures forall j :: from <= j < k ==> !OpenStep(steps[j])
    decreases |steps| - from
  {
    if from == |steps| || OpenStep(steps[from]) then from else Candidate(steps, from + 1)
  }

  /** Positions of a step's invocations. */
  function Attempts(invocations: seq<Invocation>, k: nat): set<nat> {
    set i: nat | i < |invocations| && invocations[i].step == k
  }

  function Retries(invocations: seq<Invocation>): set<nat> {
    set i: nat | i < |invocations| && invocations[i].attempt > 0
  }

  function CallsOfName(invocations: seq<Invocation>, name: string): set<nat> {
    set i: nat | i < |invocations| && invocations[i].tool.name == name
  }

  predicate ExactlyAttemptZeroFinished(run: AgentRun, k: nat) {
    && |Attempts(run.invocations, k)| == 1
    && exists i :: 0 <= i < |run.invocations| && run.invocations[i].step == k && run.invocations[i].attempt == 0
         && (run.invocations[i].status.Errored? || run.invocations[i].status.TimedOut? || run.invocations[i].status.Discarded?)
  }

  /** The single earlier invocation of a step that is up for its retry. */
  function Previous(invocations: seq<Invocation>, k: nat): (i: nat)
    requires exists j :: 0 <= j < |invocations| && invocations[j].step == k
    ensures i < |invocations| && invocations[i].step == k
    decreases |invocations|
  {
    if invocations[|invocations| - 1].step == k then |invocations| - 1
    else Previous(invocations[..|invocations| - 1], k)
  }

  datatype Reservation = Reservation(run: AgentRun, invocation: Option<nat>)

  function NoReservation(r: Outcome<AgentRun>): Outcome<Reservation> {
    match r case Err(e) => Err(e) case Ok(after) => Ok(Reservation(after, None))
  }

  /** Policy decision of `reserve_next` for step `k`; both counters are read from the rows. */
  function StepRejection(run: AgentRun, k: nat, reg: Registry, provider: bool): Option<PolicyCode>
    requires k < |run.steps|
  {
    var s := run.steps[k];
    Rejection(reg, s.tool, "read", s.input, run.captured, |run.invocations|,
              |CallsOfName(run.invocations, s.tool.name)|, provider)
  }

  /** The tail of `reserve_next` once the attempt number is known. */
  function ReserveAttempt(run: AgentRun, k: nat, attempt: nat, reg: Registry, provider: bool, now: int): Outcome<Reservation>
    requires k < |run.steps|
  {
    if StepRejection(run, k, reg, provider).Some? then NoReservation(FailWithoutInvocation(run, k, now))
    else
      var v := Invocation(k, attempt, run.steps[k].tool, "read", InFlight, None, now);
      var after := SetStep(run, k, InProgress).(invocations := run.invocations + [v]);
      Ok(Reservation(Append(after, Other), Some(|run.invocations|)))
  }

  /** `reserve_next`. */
  function Reserve(run: AgentRun, reg: Registry, allowed: Option<set<ToolId>>, provider: bool, now: int): Outcome<Reservation> {
    if !run.state.Running? then Ok(Reservation(run, None))
    else if now >= run.runDeadline then NoReservation(ExpireExecution(run, now))
    else
      var k := Candidate(run.steps, 0);
      if k == |run.steps| then Ok(Reservation(run, None))
      else if !run.supported then NoReservation(FailWithoutInvocation(run, k, now))
      else if exists j :: 0 <= j < k && !run.steps[j].status.Succeeded? then Err(PlanInvalid)
      else if allowed.Some? && run.steps[k].tool !in allowed.value
      then NoReservation(FailWithoutInvocation(run, k, now))
      else if run.steps[k].status.Pending? then ReserveAttempt(run, k, 0, reg, provider, now)
      else if !ExactlyAttemptZeroFinished(run, k) then Err(PlanInvalid)
      else
        var v := run.invocations[Previous(run.invocations, k)];
        if run.steps[k].tool !in reg
           || !ClassifyRetry(v.error, v.authority, reg[run.steps[k].tool].pureRead).SafeTransientRead?
        then NoReservation(FailActiveStep(run, k, now))
        else if |Retries(run.invocations)| >= run.retryBudget then NoReservation(FailActiveStep(run, k, now))
        else ReserveAttempt(run, k, 1, reg, provider, now)
  }

  /** What the tool call brought back; `oversized` only matters with an output. */
  datatype ToolResult = ToolResult(hasOutput: bool, oversized: bool, code: Option<ErrorCode>)

  function EffectiveCode(result: ToolResult): Option<ErrorCode> {
    if result.code.None? && result.hasOutput && result.oversized then Some(ToolOutputOversized) else result.code
  }

  function Retryable(v: Invocation, code: ErrorCode, reg: Registry): bool {
    v.tool in reg && v.attempt == 0
    && ClassifyRetry(Some(code), v.authority, reg[v.tool].pureRead).SafeTransientRead?
  }

  datatype Finalization = Finalization(run: AgentRun, proceed: bool)

  function Stop(r: Outcome<AgentRun>): Outcome<Finalization> {
    match r case Err(e) => Err(e) case Ok(after) => Ok(Finalization(after, false))
  }

  /** `finalize_invocation` for the invocation at position `i`. */
  function Finalize(run: AgentRun, i: nat, result: ToolResult, reg: Registry, now: int): Outcome<Finalization> {
    if i >= |run.invocations| || run.invocations[i].step >= |run.steps| || !run.invocations[i].status.InFlight?
    then Ok(Finalization(run, false))
    else
      var v := run.invocations[i];
      if !run.state.Running? then
        var code := if run.state.Cancelled? then CancellationDiscard else ToolResultDiscarded;
        Ok(Finalization(SetInvocation(run, i, Discarded, Some(code)), false))
      else if now >= run.runDeadline then
        Stop(ExpireExecution(SetInvocation(run, i, Discarded, Some(DeadlineExpired)), now))
      else match EffectiveCode(result)
        case None =>
          if !result.hasOutput then Ok(Finalization(Append(run, Other), true))
          else Ok(Finalization(Append(SetStep(SetInvocation(run, i, Done, v.error), v.step, Succeeded), Other), true))
        case Some(code) =>
          var marked := SetInvocation(run, i, if code.ToolTimeout? then TimedOut else Errored, Some(code));
          if Retryable(v, code, reg) then Ok(Finalization(Append(SetStep(marked, v.step, InProgress), Other), true))
          else Stop(FailRun(Append(SetStep(marked, v.step, StepFailed), Other), now))
  }

  // ----- completing, cancelling, recovering -----

  predicate HasResult(events: seq<Event>, kind: ResultKind) {
    exists i :: 0 <= i < |events| && events[i].body == ResultEvent(kind)
  }

  /** `complete_run`; `required` lists the result events this kind of Run must have. */
  function Complete(run: AgentRun, required: set<ResultKind>, now: int): Outcome<AgentRun> {
    if !run.state.Running? then Ok(run)
    else if run.steps == [] || exists k :: 0 <= k < |run.steps| && !run.steps[k].status.Succeeded? then Ok(run)
    else if exists kind :: kind in required && !HasResult(ReadEvents(run), kind) then FailRun(run, now)
    else Transition(run, Running, run.revision, Completed, now)
  }

  /** `cancel_run`. */
  function Cancel(run: AgentRun, expected: nat, now: int): Outcome<AgentRun> {
    if run.state.Cancelled? then Ok(run)
    else if Terminal(run.state) then Err(TransitionConflict)
    else if run.revision != expected then Err(RevisionConflict)
    else
      Transition(LogDiscards(run, 0).(invocations := DiscardActive(run.invocations, CancellationDiscard),
                                      steps := CancelOpen(run.steps)),
                 run.state, expected, RunState.Cancelled, now)
  }

  /** One event per invocation that cancellation discards. */
  function LogDiscards(run: AgentRun, from: nat): (logged: AgentRun)
    requires from <= |run.invocations|
    ensures logged == run.(events := logged.events)
    decreases |run.invocations| - from
  {
    if from == |run.invocations| then run
    else LogDiscards(if ActiveInvocation(run.invocations[from]) then Append(run, Other) else run, from + 1)
  }

  function FirstActive(invocations: seq<Invocation>, from: nat): (i: nat)
    requires from <= |invocations|
    ensures from <= i <= |invocations|
    ensures i < |invocations| ==> ActiveInvocation(invocations[i])
    ensures forall j :: from <= j < i ==> !ActiveInvocation(invocations[j])
    decreases |invocations| - from
  {
    if from == |invocations| || ActiveInvocation(invocations[from]) then from else FirstActive(invocations, from + 1)
  }

  function StaleAt(v: Invocation, reg: Registry): int {
    v.reservedAt + (if v.tool in reg then reg[v.tool].timeoutSeconds * SECOND else 0) + RECOVERY_GRACE
  }

  /** `_exact_pure_read_definition`. */
  predicate ExactPureRead(run: AgentRun, v: Invocation, reg: Registry) {
    && run.captured.registryVersion == REGISTRY_VERSION
    && v.step < |run.steps| && run.steps[v.step].tool == v.tool
    && v.authority == "read"
    && v.tool in reg && reg[v.tool].pureRead
  }

  /** What recovery does with the only active invocation once it is stale. */
  function RecoverStale(run: AgentRun, i: nat, reg: Registry, now: int): Outcome<AgentRun>
    requires i < |run.invocations|
  {
    var v := run.invocations[i];
    if !ExactPureRead(run, v, reg) then
      if v.step >= |run.steps| then FailRun(run, now) else FailActiveStep(run, v.step, now)
    else
      var reconciled := Append(SetInvocation(run, i, Discarded, Some(ToolTimeout)), Other);
      if v.attempt >= run.retryBudget then FailActiveStep(reconciled, v.step, now) else Ok(reconciled)
  }

  /** `prepare_one`. */
  function Recover(run: AgentRun, reg: Registry, now: int): Outcome<AgentRun> {
    if Terminal(run.state) then Ok(run)
    else if (run.state.Created? || run.state.Planning?) && now >= run.planningDeadline
    then Transition(run, run.state, run.revision, Expired, now)
    else if run.state.Ready? then
      if now >= run.runDeadline then Transition(run, Ready, run.revision, Expired, now) else Ok(run)
    else if !run.state.Running? then Ok(run)
    else if now >= run.runDeadline then ExpireExecution(run, now)
    else
      var i := FirstActive(run.invocations, 0);
      var n := |run.invocations|;
      if i < n && FirstActive(run.invocations, i + 1) < n then FailRun(run, now)
      else if i < n then
        if now < StaleAt(run.invocations[i], reg) then Ok(run) else RecoverStale(run, i, reg, now)
      else if Candidate(run.steps, 0) == |run.steps| then
        if run.steps != [] && forall k :: 0 <= k < |run.steps| ==> run.steps[k].status.Succeeded?
        then Ok(run) else FailRun(run, now)
      else if exists k :: 0 <= k < |run.steps| && run.steps[k].status.InProgress? && Attempts(run.invocations, k) == {}
      then FailActiveStep(run, FirstInProgress(run.steps), now)
      else Ok(run)
  }

  function FirstInProgress(steps: seq<AgentStep>): (k: nat)
    requires exists j :: 0 <= j < |steps| && steps[j].status.InProgress?
    ensures k < |steps| && steps[k].status.InProgress?
    ensures forall j :: 0 <= j < k ==> !steps[j].status.InProgress?
  {
    if steps[0].status.InProgress? then 0 else FirstInProgress(steps[1..]) + 1
  }

  // ----- every committed step -----

  /** One committed transaction on the Run; the tool registry is fixed in the program. */
  datatype Step =
    | ClaimPlanningStep(expected: nat)
    | FinalizePlanStep(planningRevision: nat, plan: seq<PlannedStep>)
    | FailPlanningStep(planningRevision: nat)
    | ClaimStep(expected: nat, allowed: Option<set<ToolId>>, now: int)
    | ReserveStep(allowed: Option<set<ToolId>>, provider: bool, now: int)
    | FinalizeStep(invocation: nat, result: ToolResult, now: int)
    | CompleteStep(required: set<ResultKind>, now: int)
    | CancelStep(expected: nat, now: int)
    | RecoverStep(now: int)
    | PersistResult(kind: ResultKind)
    | FailSynthesis(now: int)
    | ExpireSynthesis(now: int)
    | LogOther

  function Attempt(run: AgentRun, reg: Registry, s: Step): Outcome<AgentRun> {
    match s
    case ClaimPlanningStep(expected) => ClaimPlanning(run, expected)
    case FinalizePlanStep(planningRevision, plan) => FinalizePlan(run, planningRevision, plan)
    case FailPlanningStep(planningRevision) => FailPlanning(run, planningRevision)
    case ClaimStep(expected, allowed, now) =>
      (match ClaimExecution(run, expected, reg, allowed, now) case Err(e) => Err(e) case Ok(r) => Ok(r.run))
    case ReserveStep(allowed, provider, now) =>
      (match Reserve(run, reg, allowed, provider, now) case Err(e) => Err(e) case Ok(r) => Ok(r.run))
    case FinalizeStep(i, result, now) =>
      (match Finalize(run, i, result, reg, now) case Err(e) => Err(e) case Ok(r) => Ok(r.run))
    case CompleteStep(required, now) => Complete(run, required, now)
    case CancelStep(expected, now) => Cancel(run, expected, now)
    case RecoverStep(now) => Recover(run, reg, now)
    case PersistResult(kind) => if run.state.Running? then Ok(Append(run, ResultEvent(kind))) else Ok(run)
    case FailSynthesis(now) => if run.state.Running? then FailRun(run, now) else Ok(run)
    case ExpireSynthesis(now) =>
      if run.state.Running? && now >= run.runDeadline then Transition(run, Running, run.revision, Expired, now)
      else Ok(run)
    case LogOther => Ok(Append(run, Other))
  }

  /** A step that raises writes nothing. */
  function Apply(run: AgentRun, reg: Registry, s: Step): AgentRun {
    match Attempt(run, reg, s) case Ok(after) => after case Err(_) => run
  }

  function Runs(run: AgentRun, reg: Registry, steps: seq<Step>): AgentRun
    decreases |steps|
  {
    if steps == [] then run else Runs(Apply(run, reg, steps[0]), reg, steps[1..])
  }

  lemma {:induction false} RunsConcat(run: AgentRun, reg: Registry, a: seq<Step>, b: seq<Step>)
    ensures Runs(run, reg, a + b) == Runs(Runs(run, reg, a), reg, b)
    decreases |a|
  {
    hide Apply;
    if a == [] {
      assert a + b == b;
    } else {
      assert (a + b)[0] == a[0] && (a + b)[1..] == a[1..] + b;
      RunsConcat(Apply(run, reg, a[0]), reg, a[1..], b);
    }
  }

  lemma RunsOne(run: AgentRun, reg: Registry, s: Step)
    ensures Runs(run, reg, [s]) == Apply(run, reg, s)
  {
    assert [s][1..] == [];
    hide Apply;
  }
}
