/** Plan validation, and what an accepted plan promises to execution. */
module Planning {
  import opened Wrappers
  import opened AgentRunStates
  import opened ToolPolicy
  import opened RunModel
  import opened RunInvariant
  import opened RunSafety

  datatype ProposedStep = ProposedStep(step: PlannedStep, forbiddenText: bool)

  datatype PlanError = OutputRejected | PolicyRejected

  /** Positions before `k` that plan this exact tool. */
  function PlannedBefore(plan: seq<PlannedStep>, k: nat, tool: ToolId): set<nat> {
    set j: nat | j < k && j < |plan| && plan[j].tool == tool
  }

  predicate StepAccepted(plan: seq<PlannedStep>, k: nat, captured: Captured, allowed: Option<set<ToolId>>, reg: Registry, provider: bool)
    requires k < |plan|
  {
    && (allowed.Some? ==> plan[k].tool in allowed.value)
    && Rejection(reg, plan[k].tool, "read", plan[k].input, captured, k, |PlannedBefore(plan, k, plan[k].tool)|, provider).None?
    && forall j :: 0 <= j < k ==> plan[j] != plan[k]
  }

  predicate SizeAccepted(plan: seq<PlannedStep>, stepBudget: int) {
    1 <= |plan| && |plan| <= stepBudget && |plan| <= PLAN_LIMIT
  }

  /** What `validate_plan` promises about a plan it accepts. */
  predicate Accepted(plan: seq<PlannedStep>, stepBudget: int, captured: Captured, allowed: Option<set<ToolId>>, reg: Registry, provider: bool) {
    && SizeAccepted(plan, stepBudget)
    && forall k :: 0 <= k < |plan| ==> StepAccepted(plan, k, captured, allowed, reg, provider)
  }

  function Plan(proposed: seq<ProposedStep>): (plan: seq<PlannedStep>)
    ensures |plan| == |proposed|
  {
    seq(|proposed|, k requires 0 <= k < |proposed| => proposed[k].step)
  }

  function Counted(perTool: map<ToolId, nat>, tool: ToolId): nat {
    if tool in perTool then perTool[tool] else 0
  }

  ghost predicate CountsPlanned(perTool: map<ToolId, nat>, plan: seq<PlannedStep>, k: nat) {
    forall tool :: Counted(perTool, tool) == |PlannedBefore(plan, k, tool)|
  }

  lemma CountsNext(plan: seq<PlannedStep>, i: nat, perTool: map<ToolId, nat>)
    requires i < |plan| && CountsPlanned(perTool, plan, i)
    ensures CountsPlanned(perTool[plan[i].tool := Counted(perTool, plan[i].tool) + 1], plan, i + 1)
  {
    var next := perTool[plan[i].tool := Counted(perTool, plan[i].tool) + 1];
    forall tool ensures Counted(next, tool) == |PlannedBefore(plan, i + 1, tool)| {
      CountNext(plan, i, tool);
      assert Counted(perTool, tool) == |PlannedBefore(plan, i, tool)|;
    }
  }

  lemma NothingCounted(plan: seq<PlannedStep>)
    ensures CountsPlanned(map[], plan, 0)
  {
    forall tool ensures Counted(map[], tool) == |PlannedBefore(plan, 0, tool)| {
      assert PlannedBefore(plan, 0, tool) == {};
    }
  }

  lemma CountNext(plan: seq<PlannedStep>, k: nat, tool: ToolId)
    requires k < |plan|
    ensures |PlannedBefore(plan, k + 1, tool)| == |PlannedBefore(plan, k, tool)| + if plan[k].tool == tool then 1 else 0
  {
    if plan[k].tool == tool {
      assert PlannedBefore(plan, k + 1, tool) == PlannedBefore(plan, k, tool) + {k};
    } else {
      assert PlannedBefore(plan, k + 1, tool) == PlannedBefore(plan, k, tool);
    }
  }

  /** What the loop checks of one step. */
  lemma {:induction false} StepChecked(plan: seq<PlannedStep>, i: nat, captured: Captured, allowed: Option<set<ToolId>>, reg: Registry,
                                       provider: bool, perTool: map<ToolId, nat>, seen: set<PlannedStep>)
    requires i < |plan| && CountsPlanned(perTool, plan, i) && forall s :: s in seen <==> s in plan[..i]
    ensures StepAccepted(plan, i, captured, allowed, reg, provider)
            <==> && (allowed.Some? ==> plan[i].tool in allowed.value)
                 && Rejection(reg, plan[i].tool, "read", plan[i].input, captured, i, Counted(perTool, plan[i].tool), provider).None?
                 && plan[i] !in seen
  {
    hide Rejection;
    assert Counted(perTool, plan[i].tool) == |PlannedBefore(plan, i, plan[i].tool)|;
    if plan[i] in seen {
      var j :| 0 <= j < i && plan[..i][j] == plan[i];
      assert plan[j] == plan[i];
    } else {
      assert forall j :: 0 <= j < i ==> plan[..i][j] == plan[j];
    }
  }

  /** `validate_plan`. */
  method ValidatePlan(proposed: seq<ProposedStep>, goalMatches: bool, stepBudget: int, captured: Captured,
                      allowed: Option<set<ToolId>>, reg: Registry, provider: bool)
    returns (r: Result<seq<PlannedStep>, PlanError>)
    ensures r == (
      if !goalMatches || !(1 <= |proposed| <= 12) || |proposed| > stepBudget then Err(OutputRejected)
      else if (exists k :: 0 <= k < |proposed| && proposed[k].forbiddenText)
              || !Executable(Plan(proposed), stepBudget, captured, allowed, reg, provider)
      then Err(PolicyRejected)
      else Ok(Plan(proposed)))
  {
    hide Rejection, PlannedBefore, Counted, CountsPlanned, StepAccepted;
    ghost var plan := Plan(proposed);
    AcceptedIsExecutable(plan, stepBudget, captured, allowed, reg, provider);
    hide Executable;
    NothingCounted(plan);
    if !goalMatches || |proposed| < 1 || |proposed| > stepBudget || |proposed| > PLAN_LIMIT {
      return Err(OutputRejected);
    }
    var perTool: map<ToolId, nat> := map[];
    var seen: set<PlannedStep> := {};
    var validated: seq<PlannedStep> := [];
    for i := 0 to |proposed|
      invariant validated == plan[..i]
      invariant forall s :: s in seen <==> s in plan[..i]
      invariant CountsPlanned(perTool, plan, i)
      invariant forall k :: 0 <= k < i ==> !proposed[k].forbiddenText
      invariant forall k :: 0 <= k < i ==> StepAccepted(plan, k, captured, allowed, reg, provider)
    {
      var step := proposed[i].step;
      StepChecked(plan, i, captured, allowed, reg, provider, perTool, seen);
      if proposed[i].forbiddenText { return Err(PolicyRejected); }
      if allowed.Some? && step.tool !in allowed.value { return Err(PolicyRejected); }
      var count := Counted(perTool, step.tool);
      if Rejection(reg, step.tool, "read", step.input, captured, i, count, provider).Some? { return Err(PolicyRejected); }
      if step in seen { return Err(PolicyRejected); }
      CountsNext(plan, i, perTool);
      seen := seen + {step};
      perTool := perTool[step.tool := count + 1];
      validated := validated + [step];
    }
    assert plan[..|proposed|] == plan;
    r := Ok(validated);
  }

  // ----- what acceptance means -----

  /** The last step of the plan that uses a tool. */
  function LastUse(plan: seq<PlannedStep>, tool: ToolId): (last: nat)
    requires exists j :: 0 <= j < |plan| && plan[j].tool == tool
    ensures last < |plan| && plan[last].tool == tool
    ensures forall j :: last < j < |plan| ==> plan[j].tool != tool
  {
    var n := |plan| - 1;
    if plan[n].tool == tool then n else LastUse(plan[..n], tool)
  }

  /** The whole plan at once: its size, its steps one by one, no repetition, and the uses of each tool. */
  ghost predicate Executable(plan: seq<PlannedStep>, stepBudget: int, captured: Captured, allowed: Option<set<ToolId>>,
                             reg: Registry, provider: bool) {
    && 1 <= |plan| <= 12 && |plan| <= stepBudget && |plan| <= captured.toolCallBudget
    && (forall j, k :: 0 <= j < k < |plan| ==> plan[j] != plan[k])
    && (forall k :: 0 <= k < |plan| ==>
          && Permitted(reg, plan[k].tool, plan[k].input, captured, provider)
          && (allowed.Some? ==> plan[k].tool in allowed.value))
    && (forall tool :: tool in reg ==> |PlannedBefore(plan, |plan|, tool)| <= reg[tool].callsPerRun)
  }

  /**
   The checks made step by step, with running counters, accept exactly the executable plans: in particular
   no accepted plan reads another Project, needs a missing provider, or uses a tool beyond its limit.
   */
  lemma {:induction false} AcceptedIsExecutable(plan: seq<PlannedStep>, stepBudget: int, captured: Captured, allowed: Option<set<ToolId>>,
                             reg: Registry, provider: bool)
    ensures Accepted(plan, stepBudget, captured, allowed, reg, provider)
            <==> Executable(plan, stepBudget, captured, allowed, reg, provider)
  {
    hide PlannedBefore, Rejection;
    forall k: nat | k < |plan|
      ensures StepAccepted(plan, k, captured, allowed, reg, provider)
              <==> && Permitted(reg, plan[k].tool, plan[k].input, captured, provider)
                   && k < captured.toolCallBudget && |PlannedBefore(plan, k, plan[k].tool)| < reg[plan[k].tool].callsPerRun
                   && (allowed.Some? ==> plan[k].tool in allowed.value) && forall j :: 0 <= j < k ==> plan[j] != plan[k]
    {
      AcceptedIff(reg, plan[k].tool, "read", plan[k].input, captured, k, |PlannedBefore(plan, k, plan[k].tool)|, provider);
    }
    if Accepted(plan, stepBudget, captured, allowed, reg, provider) {
      assert StepAccepted(plan, |plan| - 1, captured, allowed, reg, provider);
      forall tool | tool in reg ensures |PlannedBefore(plan, |plan|, tool)| <= reg[tool].callsPerRun {
        UsesWithinLimit(plan, reg, tool);
      }
    }
    if Executable(plan, stepBudget, captured, allowed, reg, provider) {
      forall k: nat | k < |plan| ensures |PlannedBefore(plan, k, plan[k].tool)| < |PlannedBefore(plan, |plan|, plan[k].tool)| {
        UsesGrow(plan, k);
      }
    }
  }

  lemma {:induction false} UsesGrow(plan: seq<PlannedStep>, k: nat)
    requires k < |plan|
    ensures |PlannedBefore(plan, k, plan[k].tool)| < |PlannedBefore(plan, |plan|, plan[k].tool)|
  {
    var before := PlannedBefore(plan, k, plan[k].tool);
    assert |before + {k}| == |before| + 1;
    SubsetSize(before + {k}, PlannedBefore(plan, |plan|, plan[k].tool));
  }

  lemma {:induction false} UsesWithinLimit(plan: seq<PlannedStep>, reg: Registry, tool: ToolId)
    requires tool in reg
    requires forall k :: 0 <= k < |plan| && plan[k].tool == tool ==> |PlannedBefore(plan, k, tool)| < reg[tool].callsPerRun
    ensures |PlannedBefore(plan, |plan|, tool)| <= reg[tool].callsPerRun
  {
    hide PlannedBefore, LastUse;
    if j :| 0 <= j < |plan| && plan[j].tool == tool {
      UsesOfLast(plan, tool, LastUse(plan, tool));
    } else {
      NoUses(plan, tool);
    }
  }

  lemma {:induction false} UsesOfLast(plan: seq<PlannedStep>, tool: ToolId, last: nat)
    requires last < |plan| && plan[last].tool == tool && forall j :: last < j < |plan| ==> plan[j].tool != tool
    ensures |PlannedBefore(plan, |plan|, tool)| == |PlannedBefore(plan, last, tool)| + 1
  {
    assert PlannedBefore(plan, |plan|, tool) == PlannedBefore(plan, last, tool) + {last};
  }

  lemma {:induction false} NoUses(plan: seq<PlannedStep>, tool: ToolId)
    requires forall j :: 0 <= j < |plan| ==> plan[j].tool != tool
    ensures PlannedBefore(plan, |plan|, tool) == {}
  {
  }

  // ----- counting calls against the plan -----

  function FirstCalls(invocations: seq<Invocation>, name: string): set<nat> {
    set i: nat | i < |invocations| && invocations[i].attempt == 0 && invocations[i].tool.name == name
  }

  function RetriesOfName(invocations: seq<Invocation>, name: string): set<nat> {
    set i: nat | i < |invocations| && invocations[i].attempt > 0 && invocations[i].tool.name == name
  }

  /** Steps before `k` whose tool has this name. */
  function StepsOfName(steps: seq<AgentStep>, k: nat, name: string): set<nat> {
    set j: nat | j < k && j < |steps| && steps[j].tool.name == name
  }

  function StepOf(invocations: seq<Invocation>, i: nat): nat {
    if i < |invocations| then invocations[i].step else 0
  }

  lemma {:induction false} InjectiveImage(s: set<nat>, t: set<nat>, f: nat -> nat)
    requires forall x, y :: x in s && y in s && f(x) == f(y) ==> x == y
    requires forall x :: x in s ==> f(x) in t
    requires forall y :: y in t ==> exists x :: x in s && f(x) == y
    ensures |s| == |t|
  {
    if s == {} {
      assert t == {};
    } else {
      var x :| x in s;
      InjectiveImage(s - {x}, t - {f(x)}, f);
    }
  }

  /** Exactly the first `n` steps have calls. */
  predicate CalledUpTo(run: AgentRun, n: nat) {
    && n <= |run.steps|
    && (forall j :: 0 <= j < n ==> HasInvocation(run.invocations, j))
    && forall i :: 0 <= i < |run.invocations| ==> run.invocations[i].step < n
  }

  /** The first calls are those of the steps called so far, one each. */
  lemma FirstCallsMatchSteps(run: AgentRun, reg: Registry, n: nat, name: string)
    requires Inv(run, reg) && CalledUpTo(run, n)
    ensures |FirstCalls(run.invocations, name)| == |StepsOfName(run.steps, n, name)|
  {
    var invocations := run.invocations;
    var s, t, f := FirstCalls(invocations, name), StepsOfName(run.steps, n, name), (i: nat) => StepOf(invocations, i);
    hide Work, StateOk, WithinBudgets, Ordered, HasInvocation;
    FirstCallsOfSteps(run, reg);
    forall y | y in t ensures exists x :: x in s && f(x) == y {
      FirstCallExists(run, reg, y);
      var x: nat :| x < |invocations| && invocations[x].step == y && invocations[x].attempt == 0;
      assert x in s && f(x) == y;
    }
    InjectiveImage(s, t, f);
  }

  /** Two first calls belong to different steps. */
  lemma FirstCallsOfSteps(run: AgentRun, reg: Registry)
    requires Inv(run, reg)
    ensures forall i, j | 0 <= i < |run.invocations| && 0 <= j < |run.invocations| ::
              run.invocations[i].attempt == 0 && run.invocations[j].attempt == 0 && run.invocations[i].step == run.invocations[j].step
              ==> i == j
    ensures Owned(run.steps, run.invocations)
  {
  }

  lemma FirstCallExists(run: AgentRun, reg: Registry, k: nat)
    requires Inv(run, reg)
    requires HasInvocation(run.invocations, k)
    ensures exists x: nat :: x < |run.invocations| && run.invocations[x].step == k && run.invocations[x].attempt == 0
  {
    var i :| 0 <= i < |run.invocations| && run.invocations[i].step == k;
    if run.invocations[i].attempt == 1 {
      assert run.invocations[i - 1].step == k && run.invocations[i - 1].attempt == 0;
    }
  }

  /** Calls of a tool name are the plan's uses of it so far, plus its retries. */
  lemma CallsAreStepsAndRetries(run: AgentRun, reg: Registry, n: nat, name: string)
    requires Inv(run, reg) && CalledUpTo(run, n)
    ensures |CallsOfName(run.invocations, name)|
            == |StepsOfName(run.steps, n, name)| + |RetriesOfName(run.invocations, name)|
  {
    FirstCallsMatchSteps(run, reg, n, name);
    assert CallsOfName(run.invocations, name) == FirstCalls(run.invocations, name) + RetriesOfName(run.invocations, name);
  }

  /** Never more calls than steps reached plus retries. */
  lemma CallsWithinSteps(run: AgentRun, reg: Registry)
    requires Inv(run, reg)
    ensures |run.invocations| <= |run.steps| + |Retries(run.invocations)|
  {
    FirstCallsOfSteps(run, reg);
    hide Inv;
    AtMostOneFirstCall(run.steps, run.invocations, |run.steps|);
    CallsAreFirstOrRetry(run.invocations);
  }

  function AllFirstCalls(invocations: seq<Invocation>): set<nat> {
    set i: nat | i < |invocations| && invocations[i].attempt == 0
  }

  lemma CallsAreFirstOrRetry(invocations: seq<Invocation>)
    ensures |invocations| == |AllFirstCalls(invocations)| + |Retries(invocations)|
  {
    assert UpTo(|invocations|) == AllFirstCalls(invocations) + Retries(invocations);
  }

  lemma AtMostOneFirstCall(steps: seq<AgentStep>, invocations: seq<Invocation>, n: nat)
    requires forall i :: 0 <= i < |invocations| ==> invocations[i].step < n
    requires forall i, j | 0 <= i < |invocations| && 0 <= j < |invocations| ::
               invocations[i].attempt == 0 && invocations[j].attempt == 0 && invocations[i].step == invocations[j].step
               ==> i == j
    ensures |AllFirstCalls(invocations)| <= n
  {
    var first := AllFirstCalls(invocations);
    var reached := set i | i in first :: StepOf(invocations, i);
    var f := (i: nat) => StepOf(invocations, i);
    forall y | y in reached ensures exists x :: x in first && f(x) == y {
      var x :| x in first && y == StepOf(invocations, x);
      assert f(x) == y;
    }
    InjectiveImage(first, reached, f);
    SubsetSize(reached, UpTo(n));
  }

  function UpTo(n: nat): (s: set<nat>)
    ensures |s| == n
    ensures forall i: nat :: i in s <==> i < n
  {
    if n == 0 then {}
    else
      var rest := UpTo(n - 1);
      assert n - 1 !in rest;
      rest + {n - 1}
  }

  // ----- an accepted plan refines execution -----

  predicate OneVersionPerName(plan: seq<PlannedStep>) {
    forall j, k :: 0 <= j < |plan| && 0 <= k < |plan| && plan[j].tool.name == plan[k].tool.name ==> plan[j].tool == plan[k].tool
  }

  /** The Run executes this plan. */
  predicate Executes(run: AgentRun, plan: seq<PlannedStep>) {
    && |run.steps| == |plan|
    && forall k :: 0 <= k < |plan| ==> run.steps[k].tool == plan[k].tool && run.steps[k].input == plan[k].input
  }

  lemma PlannedUses(run: AgentRun, plan: seq<PlannedStep>, k: nat)
    requires Executes(run, plan) && OneVersionPerName(plan) && k < |plan|
    ensures StepsOfName(run.steps, k, plan[k].tool.name) == PlannedBefore(plan, k, plan[k].tool)
  {
  }

  /** Steps called so far when the candidate step comes up: it counts once it is in progress. */
  function CalledSteps(run: AgentRun): nat {
    var k := Candidate(run.steps, 0);
    if k < |run.steps| && run.steps[k].status.InProgress? then k + 1 else k
  }

  lemma CalledSoFar(run: AgentRun, reg: Registry)
    requires Inv(run, reg) && run.state.Running?
    ensures CalledUpTo(run, CalledSteps(run))
  {
    var k := Candidate(run.steps, 0);
    forall j | 0 <= j < k ensures HasInvocation(run.invocations, j) {
      assert HasDone(run.invocations, j);
    }
    forall i | 0 <= i < |run.invocations| ensures run.invocations[i].step < CalledSteps(run) {
      if k < |run.steps| { NoCallBeyond(run, reg, k, i); }
    }
  }

  /**
   The policy decision for the next call of an accepted plan, first call or retry, exactly: it depends on
   the calls of that name planned so far and on its retries, whether or not a provider has appeared since.
   */
  lemma AcceptedPlanDecision(run: AgentRun, plan: seq<PlannedStep>, stepBudget: int, allowed: Option<set<ToolId>>,
                             reg: Registry, provider: bool, k: nat, provider': bool)
    requires Inv(run, reg) && run.state.Running? && (provider ==> provider')
    requires Executes(run, plan) && Accepted(plan, stepBudget, run.captured, allowed, reg, provider)
    requires k == Candidate(run.steps, 0) && k < |run.steps|
    ensures plan[k].tool in reg
    ensures
      var name := plan[k].tool.name;
      StepRejection(run, k, reg, provider')
      == if |run.invocations| >= run.captured.toolCallBudget then Some(TotalBudgetExhausted)
         else if |StepsOfName(run.steps, CalledSteps(run), name)| + |RetriesOfName(run.invocations, name)|
                 >= reg[plan[k].tool].callsPerRun
         then Some(ToolBudgetExhausted)
         else None
  {
    AcceptedStepDecision(plan, stepBudget, run.captured, allowed, reg, provider, k,
                         |run.invocations|, |CallsOfName(run.invocations, plan[k].tool.name)|, provider');
    CalledSoFar(run, reg);
    hide Inv, Accepted, StepsOfName, PlannedBefore, Candidate, Rejection;
    CallsAreStepsAndRetries(run, reg, CalledSteps(run), plan[k].tool.name);
  }

  lemma AcceptedStepDecision(plan: seq<PlannedStep>, stepBudget: int, captured: Captured, allowed: Option<set<ToolId>>,
                             reg: Registry, provider: bool, k: nat, total: nat, perTool: nat, provider': bool)
    requires Accepted(plan, stepBudget, captured, allowed, reg, provider) && k < |plan| && (provider ==> provider')
    ensures plan[k].tool in reg
    ensures k < captured.toolCallBudget
    ensures |PlannedBefore(plan, k, plan[k].tool)| < reg[plan[k].tool].callsPerRun
    ensures Rejection(reg, plan[k].tool, "read", plan[k].input, captured, total, perTool, provider')
            == if total >= captured.toolCallBudget then Some(TotalBudgetExhausted)
               else if perTool >= reg[plan[k].tool].callsPerRun then Some(ToolBudgetExhausted)
               else None
  {
    assert StepAccepted(plan, k, captured, allowed, reg, provider);
    AcceptedWithinBudgets(reg, plan[k].tool, plan[k].input, captured, k, |PlannedBefore(plan, k, plan[k].tool)|, provider,
                          total, perTool, provider');
  }

  /** Without retries no step of an accepted plan is ever refused its call. */
  lemma RetryFreeNeverRejected(run: AgentRun, plan: seq<PlannedStep>, stepBudget: int, allowed: Option<set<ToolId>>,
                               reg: Registry, provider: bool, k: nat, provider': bool)
    requires Inv(run, reg) && run.state.Running? && (provider ==> provider')
    requires Executes(run, plan) && Accepted(plan, stepBudget, run.captured, allowed, reg, provider)
    requires OneVersionPerName(plan)
    requires k == Candidate(run.steps, 0) && k < |run.steps| && run.steps[k].status.Pending?
    requires Retries(run.invocations) == {}
    ensures StepRejection(run, k, reg, provider').None?
  {
    AcceptedPlanDecision(run, plan, stepBudget, allowed, reg, provider, k, provider');
    AcceptedStepDecision(plan, stepBudget, run.captured, allowed, reg, provider, k, 0, 0, provider);
    PlannedUses(run, plan, k);
    CallsBeforePending(run, reg, k);
    hide Inv, Accepted, OneVersionPerName, Candidate, Rejection, StepRejection;
    assert RetriesOfName(run.invocations, plan[k].tool.name) <= Retries(run.invocations);
  }

  lemma CallsBeforePending(run: AgentRun, reg: Registry, k: nat)
    requires Inv(run, reg) && run.state.Running?
    requires k == Candidate(run.steps, 0) && k < |run.steps| && run.steps[k].status.Pending?
    ensures |run.invocations| <= k + |Retries(run.invocations)|
  {
    CalledSoFar(run, reg);
    FirstCallsOfSteps(run, reg);
    hide Inv;
    AtMostOneFirstCall(run.steps, run.invocations, k);
    CallsAreFirstOrRetry(run.invocations);
  }

  /**
   A plan may use a tool as often as its limit allows; then one retry of that tool leaves the last
   use without a call, although the plan was accepted.
   */
  lemma RetryCanExhaustTheTool(run: AgentRun, plan: seq<PlannedStep>, stepBudget: int, allowed: Option<set<ToolId>>,
                               reg: Registry, provider: bool, k: nat)
    requires Inv(run, reg) && run.state.Running? && |run.invocations| < run.captured.toolCallBudget
    requires Executes(run, plan) && Accepted(plan, stepBudget, run.captured, allowed, reg, provider)
    requires OneVersionPerName(plan)
    requires k == Candidate(run.steps, 0) && k < |run.steps| && run.steps[k].status.Pending?
    requires plan[k].tool in reg
    ensures StepRejection(run, k, reg, provider) == Some(ToolBudgetExhausted)
            <==> |PlannedBefore(plan, k, plan[k].tool)| + |RetriesOfName(run.invocations, plan[k].tool.name)|
                 >= reg[plan[k].tool].callsPerRun
  {
    AcceptedPlanDecision(run, plan, stepBudget, allowed, reg, provider, k, provider);
    PlannedUses(run, plan, k);
  }

  /** With the budgets every Run is created with, the total budget is never what stops a call. */
  lemma TotalBudgetNeverStops(captured: Captured, supported: bool, created: int, reg: Registry, steps: seq<Step>,
                              run: AgentRun, k: nat, provider: bool)
    requires run == Runs(NewRun(captured, supported, created), reg, steps)
    requires run.state.Running? && k < |run.steps|
    ensures |run.invocations| <= 13 < run.captured.toolCallBudget
    ensures StepRejection(run, k, reg, provider) != Some(TotalBudgetExhausted)
  {
    var first := NewRun(captured, supported, created);
    NewRunInv(captured, supported, created, reg);
    RunsKeepInv(first, reg, steps);
    RunsEvolve(first, reg, steps);
    assert run.captured.toolCallBudget == 20 && run.stepBudget == 12 && run.retryBudget == 1;
    StandardBudgetsSuffice(run, reg, k, provider);
  }

  lemma StandardBudgetsSuffice(run: AgentRun, reg: Registry, k: nat, provider: bool)
    requires Inv(run, reg) && run.state.Running? && k < |run.steps|
    requires run.captured.toolCallBudget == 20 && run.stepBudget == 12 && run.retryBudget == 1
    ensures |run.invocations| <= 13
    ensures StepRejection(run, k, reg, provider) != Some(TotalBudgetExhausted)
  {
    CallsWithinSteps(run, reg);
  }
}
