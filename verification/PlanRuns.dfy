/** Whole runs of accepted plans: what the plan guarantees, and the retry it cannot. */
module PlanRuns {
  import opened Wrappers
  import opened AgentRunStates
  import opened ToolPolicy
  import opened RunModel
  import opened RunInvariant
  import opened RunSafety
  import opened RunLog
  import opened Planning

  // ----- a finalized plan stays the plan -----

  /** Whatever happens after planning, the Run executes the plan that was finalized. */
  lemma FinalizedPlanIsExecuted(run: AgentRun, planningRevision: nat, plan: seq<PlannedStep>, reg: Registry, steps: seq<Step>)
    requires Inv(run, reg) && plan != [] && FinalizePlan(run, planningRevision, plan).Ok?
    ensures Executes(Runs(FinalizePlan(run, planningRevision, plan).value, reg, steps), plan)
  {
    FinalizePlanKeepsInv(run, planningRevision, plan, reg);
    RunsEvolve(FinalizePlan(run, planningRevision, plan).value, reg, steps);
    hide Inv, Runs;
  }

  /**
   Once a validated plan was finalized, no retry-free execution of it is ever refused a call, provided that
   a provider it was validated with is still configured.
   */
  lemma FinalizedPlanIsNeverRefused(run: AgentRun, planningRevision: nat, plan: seq<PlannedStep>, reg: Registry, steps: seq<Step>,
                                    allowed: Option<set<ToolId>>, provider: bool, later: AgentRun, k: nat, provider': bool)
    requires Inv(run, reg) && FinalizePlan(run, planningRevision, plan).Ok? && (provider ==> provider')
    requires Accepted(plan, run.stepBudget, run.captured, allowed, reg, provider) && OneVersionPerName(plan)
    requires later == Runs(FinalizePlan(run, planningRevision, plan).value, reg, steps)
    requires later.state.Running? && Retries(later.invocations) == {}
    requires k == Candidate(later.steps, 0) && k < |later.steps| && later.steps[k].status.Pending?
    ensures StepRejection(later, k, reg, provider').None?
  {
    var planned := FinalizePlan(run, planningRevision, plan).value;
    FinalizedPlanIsExecuted(run, planningRevision, plan, reg, steps);
    FinalizePlanKeepsInv(run, planningRevision, plan, reg);
    RunsKeepInv(planned, reg, steps);
    RunsEvolve(planned, reg, steps);
    hide Inv, Runs, Accepted, OneVersionPerName, Candidate, StepRejection, Retries;
    assert later.captured == run.captured;
    RetryFreeNeverRejected(later, plan, run.stepBudget, allowed, reg, provider, k, provider');
  }

  // ----- a run in which only the first call fails -----

  const TIMEOUT := ToolResult(false, false, Some(ToolTimeout))
  const OUTPUT := ToolResult(true, false, None)

  function StatusUpTo(k: nat, j: nat): StepStatus {
    if j < k then Succeeded else Pending
  }

  function PlanSteps(plan: seq<PlannedStep>, k: nat): seq<AgentStep> {
    seq(|plan|, j requires 0 <= j < |plan| => AgentStep(plan[j].tool, plan[j].input, StatusUpTo(k, j)))
  }

  /** A live Run of this plan within its standard budgets. */
  predicate Executing(run: AgentRun, plan: seq<PlannedStep>, captured: Captured, now: int) {
    && run.state.Running? && run.supported && run.retryBudget == RETRY_BUDGET && run.stepBudget == STEP_BUDGET
    && run.captured == captured.(toolCallBudget := TOOL_CALL_BUDGET) && now < run.runDeadline
    && |run.steps| == |plan|
  }

  /** Creation, planning and the claim. */
  lemma {:induction false} ClaimedPlan(captured: Captured, now: int, plan: seq<PlannedStep>, reg: Registry, provider: bool)
    returns (steps: seq<Step>, run: AgentRun)
    requires Accepted(plan, STEP_BUDGET, captured.(toolCallBudget := TOOL_CALL_BUDGET), None, reg, provider)
    ensures run == Runs(NewRun(captured, true, now), reg, steps)
    ensures Executing(run, plan, captured, now) && run.steps == PlanSteps(plan, 0) && run.invocations == []
  {
    var c := captured.(toolCallBudget := TOOL_CALL_BUDGET);
    forall k | 0 <= k < |plan| ensures plan[k].tool in reg && c.registryVersion == REGISTRY_VERSION {
      AcceptedStepDecision(plan, STEP_BUDGET, c, None, reg, provider, k, 0, 0, provider);
    }
    assert |plan| <= STEP_BUDGET && plan != [];
    hide Accepted, Rejection;
    assert plan[0].tool in reg;
    var created := NewRun(captured, true, now);
    var planned := Planned(created, plan, reg);
    run := PlanClaimed(planned, plan, reg, now);
    steps := [ClaimPlanningStep(0), FinalizePlanStep(1, plan), ClaimStep(2, None, now)];
    hide Apply;
    ThreeSteps(created, reg, steps[0], steps[1], steps[2]);
  }

  lemma ThreeSteps(run: AgentRun, reg: Registry, a: Step, b: Step, c: Step)
    ensures Runs(run, reg, [a, b, c]) == Apply(Apply(Apply(run, reg, a), reg, b), reg, c)
  {
    hide Apply;
    var ra := Apply(run, reg, a);
    var rb := Apply(ra, reg, b);
    assert [c][1..] == [] && Runs(rb, reg, [c]) == Apply(rb, reg, c);
    assert [b, c][1..] == [c] && Runs(ra, reg, [b, c]) == Runs(rb, reg, [c]);
    assert [a, b, c][1..] == [b, c];
  }

  lemma PlanFinalized(planning: AgentRun, plan: seq<PlannedStep>, reg: Registry) returns (planned: AgentRun)
    requires planning.state.Planning? && planning.revision == 1 && planning.steps == []
    ensures planned == Apply(planning, reg, FinalizePlanStep(1, plan))
    ensures planned == planning.(state := Ready, revision := 2, steps := PlanSteps(plan, 0), events := planned.events)
    ensures |planned.events| == |planning.events| + 1
  {
    hide MaxSequence;
    planned := Apply(planning, reg, FinalizePlanStep(1, plan));
    assert PendingSteps(plan) == PlanSteps(plan, 0);
  }

  lemma {:induction false} Planned(created: AgentRun, plan: seq<PlannedStep>, reg: Registry) returns (ready: AgentRun)
    requires created.state.Created? && created.revision == 0 && created.steps == [] && created.supported
    requires created.captured.registryVersion == REGISTRY_VERSION
    ensures ready == Apply(Apply(created, reg, ClaimPlanningStep(0)), reg, FinalizePlanStep(1, plan))
    ensures ready == created.(state := Ready, revision := 2, steps := PlanSteps(plan, 0), events := ready.events)
    ensures |ready.events| == |created.events| + 2
  {
    hide MaxSequence;
    var planning := Apply(created, reg, ClaimPlanningStep(0));
    assert planning == created.(state := Planning, revision := 1, events := planning.events);
    ready := PlanFinalized(planning, plan, reg);
  }

  lemma PlanClaimed(planned: AgentRun, plan: seq<PlannedStep>, reg: Registry, now: int) returns (run: AgentRun)
    requires planned.state.Ready? && planned.revision == 2 && planned.steps == PlanSteps(plan, 0)
    requires planned.captured.registryVersion == REGISTRY_VERSION && planned.supported && now < planned.runDeadline
    requires plan != [] && |plan| <= planned.stepBudget && forall k :: 0 <= k < |plan| ==> plan[k].tool in reg
    ensures run == Apply(planned, reg, ClaimStep(2, None, now))
    ensures run == planned.(state := Running, revision := 3, events := run.events)
    ensures run.events == planned.events + [Event(MaxSequence(planned.events) + 1, StateChanged(Ready, Running, 3))]
  {
    hide OriginalClaim, MaxSequence;
    run := Apply(planned, reg, ClaimStep(2, None, now));
  }

  // ----- single calls -----

  /** A call that succeeds: reserved, then finalized with its output. */
  lemma CallReturns(run: AgentRun, reg: Registry, provider: bool, now: int, k: nat, attempt: nat) returns (after: AgentRun)
    requires run.state.Running? && now < run.runDeadline && k < |run.steps| && StepRejection(run, k, reg, provider).None?
    requires Reserve(run, reg, None, provider, now) == ReserveAttempt(run, k, attempt, reg, provider, now)
    ensures after == Apply(Apply(run, reg, ReserveStep(None, provider, now)), reg, FinalizeStep(|run.invocations|, OUTPUT, now))
    ensures after == run.(steps := run.steps[k := run.steps[k].(status := Succeeded)], events := after.events,
              invocations := run.invocations + [Invocation(k, attempt, run.steps[k].tool, "read", Done, None, now)])
  {
    hide Reserve, StepRejection, MaxSequence;
    var called := Apply(run, reg, ReserveStep(None, provider, now));
    var v := Invocation(k, attempt, run.steps[k].tool, "read", InFlight, None, now);
    assert called == run.(steps := run.steps[k := run.steps[k].(status := InProgress)], invocations := run.invocations + [v],
                          events := called.events);
    after := Apply(called, reg, FinalizeStep(|run.invocations|, OUTPUT, now));
    assert after.steps == run.steps[k := run.steps[k].(status := Succeeded)];
  }

  /** A first call that times out leaves its step waiting for the retry. */
  lemma CallTimesOut(run: AgentRun, reg: Registry, provider: bool, now: int, k: nat) returns (after: AgentRun)
    requires run.state.Running? && now < run.runDeadline && k < |run.steps| && StepRejection(run, k, reg, provider).None?
    requires Reserve(run, reg, None, provider, now) == ReserveAttempt(run, k, 0, reg, provider, now)
    requires run.steps[k].tool in reg && reg[run.steps[k].tool].pureRead
    ensures after == Apply(Apply(run, reg, ReserveStep(None, provider, now)), reg, FinalizeStep(|run.invocations|, TIMEOUT, now))
    ensures after == run.(steps := run.steps[k := run.steps[k].(status := InProgress)], events := after.events,
              invocations := run.invocations + [Invocation(k, 0, run.steps[k].tool, "read", TimedOut, Some(ToolTimeout), now)])
  {
    hide Reserve, StepRejection, MaxSequence;
    var called := Apply(run, reg, ReserveStep(None, provider, now));
    var v := Invocation(k, 0, run.steps[k].tool, "read", InFlight, None, now);
    assert called == run.(steps := run.steps[k := run.steps[k].(status := InProgress)], invocations := run.invocations + [v],
                          events := called.events);
    after := Apply(called, reg, FinalizeStep(|run.invocations|, TIMEOUT, now));
    assert after.steps == run.steps[k := run.steps[k].(status := InProgress)];
  }

  /** A refused call fails the Run. */
  lemma CallRefused(run: AgentRun, reg: Registry, provider: bool, now: int, k: nat, attempt: nat)
    requires run.state.Running? && k < |run.steps| && StepRejection(run, k, reg, provider).Some?
    requires Reserve(run, reg, None, provider, now) == ReserveAttempt(run, k, attempt, reg, provider, now)
    ensures Apply(run, reg, ReserveStep(None, provider, now)).state.Failed?
  {
    hide Reserve, StepRejection, MaxSequence;
  }

  /** The next pending step is what `reserve_next` tries. */
  lemma PendingIsNext(run: AgentRun, reg: Registry, provider: bool, now: int, k: nat)
    requires run.state.Running? && run.supported && now < run.runDeadline
    requires k < |run.steps| && run.steps[k].status.Pending? && forall j :: 0 <= j < k ==> run.steps[j].status.Succeeded?
    ensures Candidate(run.steps, 0) == k
    ensures Reserve(run, reg, None, provider, now) == ReserveAttempt(run, k, 0, reg, provider, now)
  {
    CandidateIs(run.steps, 0, k);
    hide Candidate, ReserveAttempt;
  }

  // ----- counting uses -----

  /** Only the last use has every other use before it. */
  lemma UsesBefore(plan: seq<PlannedStep>, tool: ToolId, k: nat)
    requires k < |plan| && plan[k].tool == tool
    ensures
      var uses, all := |PlannedBefore(plan, k, tool)|, |PlannedBefore(plan, |plan|, tool)|;
      if k == LastUse(plan, tool) then uses == all - 1 else uses + 2 <= all
  {
    var last := LastUse(plan, tool);
    assert PlannedBefore(plan, |plan|, tool) == PlannedBefore(plan, last, tool) + {last};
    if k < last {
      var before := PlannedBefore(plan, k, tool) + {k};
      assert |before| == |PlannedBefore(plan, k, tool)| + 1;
      SubsetSize(before, PlannedBefore(plan, last, tool));
    }
  }

  // ----- the run -----

  /** The calls so far: the first step's call timed out and was retried, every other step took one call. */
  predicate OneRetry(run: AgentRun, k: nat) {
    && k >= 1 && |run.invocations| == k + 1
    && forall i :: 0 <= i <= k ==>
         && run.invocations[i].step == (if i == 0 then 0 else i - 1)
         && run.invocations[i].attempt == (if i == 1 then 1 else 0)
         && (run.invocations[i].status.TimedOut? <==> i == 0)
  }

  lemma {:induction false} RetryCount(run: AgentRun, plan: seq<PlannedStep>, reg: Registry, k: nat, name: string)
    requires Inv(run, reg) && OneRetry(run, k) && Executes(run, plan) && plan != []
    ensures |RetriesOfName(run.invocations, name)| == if plan[0].tool.name == name then 1 else 0
    ensures |Retries(run.invocations)| == 1
  {
    assert run.invocations[1].tool == plan[0].tool;
    assert Retries(run.invocations) == {1};
    assert RetriesOfName(run.invocations, name) == if plan[0].tool.name == name then {1} else {};
  }

  /** With one retry of the first tool, exactly the last use of that tool is refused. */
  lemma {:induction false} DecisionAfterRetry(run: AgentRun, plan: seq<PlannedStep>, captured: Captured, now: int, reg: Registry, provider: bool, k: nat)
    requires Accepted(plan, STEP_BUDGET, captured.(toolCallBudget := TOOL_CALL_BUDGET), None, reg, provider) && OneVersionPerName(plan)
    requires Inv(run, reg) && Executing(run, plan, captured, now) && run.steps == PlanSteps(plan, k) && OneRetry(run, k) && k < |plan|
    requires plan[0].tool in reg && |PlannedBefore(plan, |plan|, plan[0].tool)| == reg[plan[0].tool].callsPerRun
    ensures StepRejection(run, k, reg, provider)
            == if k == LastUse(plan, plan[0].tool) then Some(ToolBudgetExhausted) else None
  {
    assert Executes(run, plan);
    CandidateIs(run.steps, 0, k);
    AcceptedPlanDecision(run, plan, STEP_BUDGET, None, reg, provider, k, provider);
    AcceptedStepDecision(plan, STEP_BUDGET, run.captured, None, reg, provider, k, 0, 0, provider);
    PlannedUses(run, plan, k);
    RetryCount(run, plan, reg, k, plan[k].tool.name);
    assert CalledSteps(run) == k;
    hide Inv, Accepted, Candidate, StepRejection, CalledSteps, RetriesOfName, StepsOfName, PlannedBefore, OneRetry;
    if plan[k].tool == plan[0].tool { UsesBefore(plan, plan[0].tool, k); }
  }

  /** The plan reached step `k` with one retry behind it. */
  ghost predicate At(run: AgentRun, plan: seq<PlannedStep>, captured: Captured, now: int, reg: Registry, k: nat) {
    Inv(run, reg) && Executing(run, plan, captured, now) && run.steps == PlanSteps(plan, k) && OneRetry(run, k)
  }

  /** The first tool is used as often as its limit allows. */
  predicate UsesFirstToolToTheLimit(plan: seq<PlannedStep>, reg: Registry) {
    plan != [] && plan[0].tool in reg && |PlannedBefore(plan, |plan|, plan[0].tool)| == reg[plan[0].tool].callsPerRun
  }

  lemma {:induction false} NextCall(run: AgentRun, plan: seq<PlannedStep>, captured: Captured, now: int, reg: Registry, provider: bool, k: nat)
    returns (next: AgentRun)
    requires Accepted(plan, STEP_BUDGET, captured.(toolCallBudget := TOOL_CALL_BUDGET), None, reg, provider) && OneVersionPerName(plan)
    requires UsesFirstToolToTheLimit(plan, reg) && At(run, plan, captured, now, reg, k) && k < LastUse(plan, plan[0].tool)
    ensures next == Apply(Apply(run, reg, ReserveStep(None, provider, now)), reg, FinalizeStep(|run.invocations|, OUTPUT, now))
    ensures At(next, plan, captured, now, reg, k + 1)
  {
    hide Inv, Accepted, OneVersionPerName, PlannedBefore, Apply, StepRejection, Candidate, OneRetry, Executing, Reserve;
    DecisionAfterRetry(run, plan, captured, now, reg, provider, k);
    StepAt(run, plan, captured, now, k);
    PendingIsNext(run, reg, provider, now, k);
    next := CallReturns(run, reg, provider, now, k, 0);
    StepKeepsInv(run, reg, ReserveStep(None, provider, now));
    StepKeepsInv(Apply(run, reg, ReserveStep(None, provider, now)), reg, FinalizeStep(|run.invocations|, OUTPUT, now));
    NextShape(run, next, plan, captured, now, k);
  }

  lemma {:induction false} StepAt(run: AgentRun, plan: seq<PlannedStep>, captured: Captured, now: int, k: nat)
    requires Executing(run, plan, captured, now) && run.steps == PlanSteps(plan, k) && k < |plan|
    ensures run.state.Running? && run.supported && now < run.runDeadline && k < |run.steps|
    ensures run.steps[k].status.Pending? && forall j :: 0 <= j < k ==> run.steps[j].status.Succeeded?
  {
  }

  lemma {:induction false} NextShape(run: AgentRun, next: AgentRun, plan: seq<PlannedStep>, captured: Captured, now: int, k: nat)
    requires Executing(run, plan, captured, now) && run.steps == PlanSteps(plan, k) && OneRetry(run, k) && k < |plan|
    requires next == run.(steps := run.steps[k := run.steps[k].(status := Succeeded)], events := next.events,
               invocations := run.invocations + [Invocation(k, 0, run.steps[k].tool, "read", Done, None, now)])
    ensures Executing(next, plan, captured, now) && next.steps == PlanSteps(plan, k + 1) && OneRetry(next, k + 1)
  {
    assert forall i :: 0 <= i <= k ==> next.invocations[i] == run.invocations[i];
  }

  /** The steps between the retry and the last use all get their call. */
  lemma {:induction false} CallsUpTo(run: AgentRun, plan: seq<PlannedStep>, captured: Captured, now: int, reg: Registry, provider: bool, k: nat)
    returns (steps: seq<Step>, after: AgentRun)
    requires Accepted(plan, STEP_BUDGET, captured.(toolCallBudget := TOOL_CALL_BUDGET), None, reg, provider) && OneVersionPerName(plan)
    requires UsesFirstToolToTheLimit(plan, reg) && At(run, plan, captured, now, reg, k) && k <= LastUse(plan, plan[0].tool)
    ensures after == Runs(run, reg, steps)
    ensures At(after, plan, captured, now, reg, LastUse(plan, plan[0].tool))
    decreases LastUse(plan, plan[0].tool) - k
  {
    hide Accepted, Apply, OneVersionPerName, At, LastUse;
    if k == LastUse(plan, plan[0].tool) {
      steps, after := [], run;
    } else {
      var next := NextCall(run, plan, captured, now, reg, provider, k);
      var reserve, finalize := ReserveStep(None, provider, now), FinalizeStep(|run.invocations|, OUTPUT, now);
      var more;
      more, after := CallsUpTo(next, plan, captured, now, reg, provider, k + 1);
      TwoSteps(run, reg, reserve, finalize, more);
      steps := [reserve, finalize] + more;
    }
  }

  lemma TwoSteps(run: AgentRun, reg: Registry, a: Step, b: Step, more: seq<Step>)
    ensures Runs(run, reg, [a, b] + more) == Runs(Apply(Apply(run, reg, a), reg, b), reg, more)
  {
    hide Apply;
    assert ([a, b] + more)[1..] == [b] + more && ([b] + more)[1..] == more;
    assert Runs(Apply(run, reg, a), reg, [b] + more) == Runs(Apply(Apply(run, reg, a), reg, b), reg, more);
  }

  /** The first call, its timeout, and the refusal or the success of its retry. */
  lemma {:induction false} FirstCallAndRetry(run: AgentRun, plan: seq<PlannedStep>, captured: Captured, now: int, reg: Registry, provider: bool)
    returns (waiting: AgentRun)
    requires Accepted(plan, STEP_BUDGET, captured.(toolCallBudget := TOOL_CALL_BUDGET), None, reg, provider) && OneVersionPerName(plan)
    requires UsesFirstToolToTheLimit(plan, reg) && reg[plan[0].tool].pureRead
    requires Inv(run, reg) && Executing(run, plan, captured, now) && run.steps == PlanSteps(plan, 0) && run.invocations == []
    ensures waiting == Apply(Apply(run, reg, ReserveStep(None, provider, now)), reg, FinalizeStep(0, TIMEOUT, now))
    ensures Waiting(waiting, plan, captured, now, reg)
    ensures Reserve(waiting, reg, None, provider, now) == ReserveAttempt(waiting, 0, 1, reg, provider, now)
    ensures StepRejection(waiting, 0, reg, provider)
            == if LastUse(plan, plan[0].tool) == 0 then Some(ToolBudgetExhausted) else None
  {
    hide Inv, Accepted, Apply, OneVersionPerName, PlannedBefore, StepRejection, Reserve, ReserveAttempt, Candidate;
    StepAt(run, plan, captured, now, 0);
    PendingIsNext(run, reg, provider, now, 0);
    NothingCalledYet(run, plan, captured, now, reg, provider);
    waiting := CallTimesOut(run, reg, provider, now, 0);
    StepKeepsInv(run, reg, ReserveStep(None, provider, now));
    StepKeepsInv(Apply(run, reg, ReserveStep(None, provider, now)), reg, FinalizeStep(0, TIMEOUT, now));
    assert waiting.invocations == [Invocation(0, 0, plan[0].tool, "read", TimedOut, Some(ToolTimeout), now)];
    RetryIsNext(waiting, plan, captured, now, reg, provider);
    RetryDecision(waiting, plan, captured, now, reg, provider);
  }

  lemma {:induction false} NothingCalledYet(run: AgentRun, plan: seq<PlannedStep>, captured: Captured, now: int, reg: Registry, provider: bool)
    requires Accepted(plan, STEP_BUDGET, captured.(toolCallBudget := TOOL_CALL_BUDGET), None, reg, provider) && OneVersionPerName(plan)
    requires UsesFirstToolToTheLimit(plan, reg)
    requires Inv(run, reg) && Executing(run, plan, captured, now) && run.steps == PlanSteps(plan, 0) && run.invocations == []
    ensures StepRejection(run, 0, reg, provider).None?
  {
    CandidateIs(run.steps, 0, 0);
    assert Executes(run, plan);
    assert Retries(run.invocations) == {};
    hide Inv, Accepted, OneVersionPerName, PlannedBefore, StepRejection, Candidate;
    RetryFreeNeverRejected(run, plan, STEP_BUDGET, None, reg, provider, 0, provider);
  }

  /** One call so far, the timed-out first call of the first step. */
  ghost predicate Waiting(run: AgentRun, plan: seq<PlannedStep>, captured: Captured, now: int, reg: Registry) {
    && plan != [] && Inv(run, reg) && Executing(run, plan, captured, now)
    && run.steps == PlanSteps(plan, 0)[0 := AgentStep(plan[0].tool, plan[0].input, InProgress)]
    && run.invocations == [Invocation(0, 0, plan[0].tool, "read", TimedOut, Some(ToolTimeout), now)]
  }

  lemma {:induction false} RetryIsNext(waiting: AgentRun, plan: seq<PlannedStep>, captured: Captured, now: int, reg: Registry, provider: bool)
    requires Waiting(waiting, plan, captured, now, reg) && plan[0].tool in reg && reg[plan[0].tool].pureRead
    ensures Reserve(waiting, reg, None, provider, now) == ReserveAttempt(waiting, 0, 1, reg, provider, now)
  {
    hide Inv, Reserve, ReserveAttempt, Candidate, Retries, ExactlyAttemptZeroFinished, Previous;
    OneTimedOut(waiting, plan[0].tool, now);
    CandidateIs(waiting.steps, 0, 0);
    RetryReserved(waiting, reg, 0, 0, None, provider, now);
  }

  lemma {:induction false} RetryDecision(waiting: AgentRun, plan: seq<PlannedStep>, captured: Captured, now: int, reg: Registry, provider: bool)
    requires Waiting(waiting, plan, captured, now, reg) && UsesFirstToolToTheLimit(plan, reg)
    requires Accepted(plan, STEP_BUDGET, captured.(toolCallBudget := TOOL_CALL_BUDGET), None, reg, provider)
    ensures StepRejection(waiting, 0, reg, provider)
            == if LastUse(plan, plan[0].tool) == 0 then Some(ToolBudgetExhausted) else None
  {
    hide Inv, Accepted, PlannedBefore, StepRejection, Candidate, StepsOfName, RetriesOfName, Retries,
         ExactlyAttemptZeroFinished, HasInvocation, Previous, LastUse;
    OneTimedOut(waiting, plan[0].tool, now);
    CandidateIs(waiting.steps, 0, 0);
    FirstStepOfName(waiting.steps);
    UsesBefore(plan, plan[0].tool, 0);
    NothingPlannedBefore(plan, plan[0].tool);
    AcceptedPlanDecision(waiting, plan, STEP_BUDGET, None, reg, provider, 0, provider);
  }

  lemma FirstStepOfName(steps: seq<AgentStep>)
    requires steps != []
    ensures StepsOfName(steps, 1, steps[0].tool.name) == {0}
  {
  }

  lemma NothingPlannedBefore(plan: seq<PlannedStep>, tool: ToolId)
    ensures PlannedBefore(plan, 0, tool) == {}
  {
  }

  lemma OneTimedOut(run: AgentRun, tool: ToolId, now: int)
    requires run.invocations == [Invocation(0, 0, tool, "read", TimedOut, Some(ToolTimeout), now)]
    ensures HasInvocation(run.invocations, 0) && Previous(run.invocations, 0) == 0
    ensures Retries(run.invocations) == {} && RetriesOfName(run.invocations, tool.name) == {}
    ensures ExactlyAttemptZeroFinished(run, 0)
  {
    assert run.invocations[0].step == 0;
    assert Attempts(run.invocations, 0) == {0};
  }

  /** The retry of the first step succeeds. */
  lemma {:induction false} RetrySucceeds(waiting: AgentRun, plan: seq<PlannedStep>, captured: Captured, now: int, reg: Registry, provider: bool)
    returns (after: AgentRun)
    requires Waiting(waiting, plan, captured, now, reg) && StepRejection(waiting, 0, reg, provider).None?
    requires Reserve(waiting, reg, None, provider, now) == ReserveAttempt(waiting, 0, 1, reg, provider, now)
    ensures after == Apply(Apply(waiting, reg, ReserveStep(None, provider, now)), reg, FinalizeStep(1, OUTPUT, now))
    ensures At(after, plan, captured, now, reg, 1)
  {
    hide Inv, Apply, StepRejection, Reserve, ReserveAttempt;
    after := CallReturns(waiting, reg, provider, now, 0, 1);
    StepKeepsInv(waiting, reg, ReserveStep(None, provider, now));
    StepKeepsInv(Apply(waiting, reg, ReserveStep(None, provider, now)), reg, FinalizeStep(1, OUTPUT, now));
  }

  /** The Run stands before the last use of the first tool, and the call is refused. */
  ghost predicate RefusedAtLast(run: AgentRun, plan: seq<PlannedStep>, reg: Registry, provider: bool, now: int)
    requires plan != []
  {
    var last := LastUse(plan, plan[0].tool);
    && run.state.Running? && |run.invocations| == last + 1
    && (forall i :: 0 <= i <= last ==> (run.invocations[i].status.TimedOut? <==> i == 0))
    && Executes(run, plan) && Candidate(run.steps, 0) == last
    && StepRejection(run, last, reg, provider) == Some(ToolBudgetExhausted)
    && Apply(run, reg, ReserveStep(None, provider, now)).state.Failed?
  }

  lemma {:induction false} RetryRefused(waiting: AgentRun, plan: seq<PlannedStep>, captured: Captured, now: int, reg: Registry, provider: bool)
    requires Waiting(waiting, plan, captured, now, reg) && LastUse(plan, plan[0].tool) == 0
    requires StepRejection(waiting, 0, reg, provider) == Some(ToolBudgetExhausted)
    requires Reserve(waiting, reg, None, provider, now) == ReserveAttempt(waiting, 0, 1, reg, provider, now)
    ensures RefusedAtLast(waiting, plan, reg, provider, now)
  {
    hide Inv, Apply, StepRejection, Reserve, ReserveAttempt, LastUse, Candidate;
    CandidateIs(waiting.steps, 0, 0);
    CallRefused(waiting, reg, provider, now, 0, 1);
  }

  lemma {:induction false} CallAtLastRefused(run: AgentRun, plan: seq<PlannedStep>, captured: Captured, now: int, reg: Registry, provider: bool)
    requires Accepted(plan, STEP_BUDGET, captured.(toolCallBudget := TOOL_CALL_BUDGET), None, reg, provider) && OneVersionPerName(plan)
    requires UsesFirstToolToTheLimit(plan, reg) && At(run, plan, captured, now, reg, LastUse(plan, plan[0].tool))
    ensures RefusedAtLast(run, plan, reg, provider, now)
  {
    hide Inv, Accepted, OneVersionPerName, PlannedBefore, Apply, StepRejection, Candidate, Reserve, ReserveAttempt;
    var last := LastUse(plan, plan[0].tool);
    DecisionAfterRetry(run, plan, captured, now, reg, provider, last);
    StepAt(run, plan, captured, now, last);
    PendingIsNext(run, reg, provider, now, last);
    CallRefused(run, reg, provider, now, last, 0);
  }

  /**
   An accepted plan that uses its first tool as often as the limit allows, run from creation: the first call
   times out, it is retried if a call is left for that, every other step up to the last use of the tool
   succeeds, and there the tool budget refuses the call and fails the Run.
   */
  lemma {:induction false} LastUseIsRefused(captured: Captured, now: int, plan: seq<PlannedStep>, reg: Registry, provider: bool)
    returns (steps: seq<Step>, run: AgentRun)
    requires Accepted(plan, STEP_BUDGET, captured.(toolCallBudget := TOOL_CALL_BUDGET), None, reg, provider) && OneVersionPerName(plan)
    requires UsesFirstToolToTheLimit(plan, reg) && reg[plan[0].tool].pureRead
    ensures run == Runs(NewRun(captured, true, now), reg, steps)
    ensures RefusedAtLast(run, plan, reg, provider, now)
  {
    hide Apply, Accepted, OneVersionPerName, At, Waiting, RefusedAtLast, StepRejection, PlannedBefore, Reserve, ReserveAttempt, NewRun, Inv;
    var created := NewRun(captured, true, now);
    var planning, claimed := ClaimedPlan(captured, now, plan, reg, provider);
    NewRunInv(captured, true, now, reg);
    RunsKeepInv(created, reg, planning);
    var waiting := FirstCallAndRetry(claimed, plan, captured, now, reg, provider);
    var reserve := ReserveStep(None, provider, now);
    TwoSteps(claimed, reg, reserve, FinalizeStep(0, TIMEOUT, now), []);
    var first := [reserve, FinalizeStep(0, TIMEOUT, now)];
    assert first + [] == first;
    RunsConcat(created, reg, planning, first);
    if LastUse(plan, plan[0].tool) == 0 {
      RetryRefused(waiting, plan, captured, now, reg, provider);
      steps, run := planning + first, waiting;
    } else {
      var retried := RetrySucceeds(waiting, plan, captured, now, reg, provider);
      var more;
      more, run := CallsUpTo(retried, plan, captured, now, reg, provider, 1);
      CallAtLastRefused(run, plan, captured, now, reg, provider);
      TwoSteps(waiting, reg, reserve, FinalizeStep(1, OUTPUT, now), more);
      var rest := [reserve, FinalizeStep(1, OUTPUT, now)] + more;
      RunsConcat(created, reg, planning + first, rest);
      steps := planning + first + rest;
    }
  }

  // ----- with the fixed registry -----

  function Reads(inputs: seq<ToolInput>): seq<PlannedStep> {
    seq(|inputs|, k requires 0 <= k < |inputs| => PlannedStep(MEMORY_GET, inputs[k]))
  }

  /** A plan of five different memory reads is accepted and uses the tool to its limit. */
  lemma {:induction false} FiveReadsAccepted(schema: ToolId -> ToolInput -> bool, inputs: seq<ToolInput>, captured: Captured,
                                             allowed: Option<set<ToolId>>, provider: bool)
    requires |inputs| == 5 && (allowed.Some? ==> MEMORY_GET in allowed.value)
    requires forall j, k :: 0 <= j < k < 5 ==> inputs[j] != inputs[k]
    requires forall k :: 0 <= k < 5 ==> schema(MEMORY_GET)(inputs[k])
    requires captured.registryVersion == REGISTRY_VERSION && captured.toolCallBudget == TOOL_CALL_BUDGET
    ensures Accepted(Reads(inputs), STEP_BUDGET, captured, allowed, FixedRegistry(schema), provider)
    ensures OneVersionPerName(Reads(inputs)) && UsesFirstToolToTheLimit(Reads(inputs), FixedRegistry(schema))
    ensures LastUse(Reads(inputs), MEMORY_GET) == 4
  {
    var plan, reg := Reads(inputs), FixedRegistry(schema);
    assert reg[MEMORY_GET] == Definition(schema(MEMORY_GET), ExactRunScope, false);
    forall k | 0 <= k <= 5 ensures |PlannedBefore(plan, k, MEMORY_GET)| == k {
      assert PlannedBefore(plan, k, MEMORY_GET) == UpTo(k);
    }
    forall k | 0 <= k < 5 ensures StepAccepted(plan, k, captured, allowed, reg, provider) {
      hide FixedRegistry, PlannedBefore;
      assert plan[k].tool == MEMORY_GET;
    }
  }

  /**
   The fixed registry has such a plan: five different memory reads pass validation, and when the first one
   times out and is retried the fifth is refused its call and the Run fails.
   */
  lemma {:induction false} FifthReadIsRefused(captured: Captured, now: int, schema: ToolId -> ToolInput -> bool, inputs: seq<ToolInput>,
                                              provider: bool)
    returns (steps: seq<Step>, run: AgentRun)
    requires |inputs| == 5 && forall j, k :: 0 <= j < k < 5 ==> inputs[j] != inputs[k]
    requires forall k :: 0 <= k < 5 ==> schema(MEMORY_GET)(inputs[k])
    requires captured.registryVersion == REGISTRY_VERSION
    ensures run == Runs(NewRun(captured, true, now), FixedRegistry(schema), steps)
    ensures RefusedAtLast(run, Reads(inputs), FixedRegistry(schema), provider, now)
    ensures |run.invocations| == 5 && Candidate(run.steps, 0) == 4
  {
    FiveReadsAccepted(schema, inputs, captured.(toolCallBudget := TOOL_CALL_BUDGET), None, provider);
    assert FixedRegistry(schema)[MEMORY_GET].pureRead;
    hide Accepted, OneVersionPerName, UsesFirstToolToTheLimit, FixedRegistry, NewRun, LastUse;
    steps, run := LastUseIsRefused(captured, now, Reads(inputs), FixedRegistry(schema), provider);
  }

  // ----- a claim behind a long log -----

  function Quiet(m: nat): seq<Step> {
    seq(m, _ => LogOther)
  }

  /** Other writers' events change the log alone. */
  lemma {:induction false} QuietRuns(run: AgentRun, reg: Registry, m: nat)
    ensures var after := Runs(run, reg, Quiet(m));
            after == run.(events := after.events) && |after.events| == |run.events| + m
    decreases m
  {
    hide MaxSequence;
    if m > 0 {
      var next := Apply(run, reg, LogOther);
      assert next == run.(events := next.events) && |next.events| == |run.events| + 1;
      hide Apply;
      QuietRuns(next, reg, m - 1);
      assert Quiet(m)[1..] == Quiet(m - 1);
    }
  }

  /** A planned Run, `m` events of other writers, its claim and its cancellation. */
  lemma {:induction false} ClaimedLate(captured: Captured, now: int, plan: seq<PlannedStep>, reg: Registry, m: nat)
    returns (steps: seq<Step>, run: AgentRun)
    requires captured.registryVersion == REGISTRY_VERSION && 1 <= |plan| <= STEP_BUDGET
    requires forall k :: 0 <= k < |plan| ==> plan[k].tool in reg
    ensures run == Runs(NewRun(captured, true, now), reg, steps) && run.state.Cancelled?
    ensures 3 + m < |run.events| && ClaimEvent(run.events[3 + m])
  {
    hide Apply, MaxSequence;
    var created := NewRun(captured, true, now);
    var ready := Planned(created, plan, reg);
    QuietRuns(ready, reg, m);
    var quiet := Runs(ready, reg, Quiet(m));
    var claimed := PlanClaimed(quiet, plan, reg, now);
    run := CancelledRun(claimed, reg, now);
    var first, last := [ClaimPlanningStep(0), FinalizePlanStep(1, plan)], [ClaimStep(2, None, now), CancelStep(3, now)];
    TwoSteps(created, reg, first[0], first[1], Quiet(m));
    TwoSteps(quiet, reg, last[0], last[1], []);
    assert last + [] == last;
    RunsConcat(created, reg, first + Quiet(m), last);
    steps := first + Quiet(m) + last;
  }

  lemma {:induction false} CancelledRun(run: AgentRun, reg: Registry, now: int) returns (after: AgentRun)
    requires run.state.Running? && run.revision == 3 && run.invocations == []
    ensures after == Apply(run, reg, CancelStep(3, now)) && after.state.Cancelled?
    ensures |run.events| < |after.events| && after.events[..|run.events|] == run.events
  {
    hide MaxSequence;
    after := Apply(run, reg, CancelStep(3, now));
  }

  /**
   The 1000-event read decides: with `m` events logged between planning and the claim, a Run cancelled
   later still answers the caller who claimed it when 3 + m < 1000 and refuses the same call otherwise.
   */
  lemma {:induction false} LateClaimIsForgotten(captured: Captured, now: int, plan: seq<PlannedStep>, reg: Registry, m: nat)
    returns (steps: seq<Step>, run: AgentRun)
    requires captured.registryVersion == REGISTRY_VERSION && 1 <= |plan| <= STEP_BUDGET
    requires forall k :: 0 <= k < |plan| ==> plan[k].tool in reg
    ensures run == Runs(NewRun(captured, true, now), reg, steps) && run.state.Cancelled?
    ensures ClaimExecution(run, 2, reg, None, now)
            == if 3 + m < 1000 then Ok(ClaimResult(run, false)) else Err(RevisionConflict)
  {
    hide Apply, NewRun, LogOk, Inv, Runs, ClaimExecution, Contiguous, Replay;
    steps, run := ClaimedLate(captured, now, plan, reg, m);
    ReachableInvAndLog(captured, now, reg, steps);
    ReachableLogs(captured, true, now, reg, steps, run);
    ReplayedClaim(run, reg, 2, None, now);
  }

  lemma {:induction false} ReachableInvAndLog(captured: Captured, now: int, reg: Registry, steps: seq<Step>)
    ensures Inv(Runs(NewRun(captured, true, now), reg, steps), reg)
    ensures LogOk(Runs(NewRun(captured, true, now), reg, steps))
  {
    var first := NewRun(captured, true, now);
    NewRunInv(captured, true, now, reg);
    assert first.events == [Event(0, RunCreatedEvent)];
    RunsKeepInv(first, reg, steps);
    RunsKeepLog(first, reg, steps);
  }
}
